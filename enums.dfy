/**
 * The string enumerations of the GitHub model (`StrEnum` with `auto()`): each
 * member's value is its name in lower case. `Name()` gives the member name and
 * `Value()` the string the member stands for; `Parse…` is the value lookup
 * `EnumClass(s)`, None where Python raises ValueError.
 */
module Enums {

  import opened Wrappers
  import opened Text

  /** The three extraction targets. There is no EVENT member. */
  datatype ModelType = Activity | Repository | UserProfile {
    function Name(): string {
      match this
      case Activity => "ACTIVITY"
      case Repository => "REPOSITORY"
      case UserProfile => "USER_PROFILE"
    }

    function Value(): string {
      match this
      case Activity => "activity"
      case Repository => "repository"
      case UserProfile => "user_profile"
    }
  }

  const AllModelTypes: seq<ModelType> := [Activity, Repository, UserProfile]

  function ParseModelType(s: string): (r: Option<ModelType>)
    ensures r.Some? ==> r.value.Value() == s
  {
    if s == "activity" then Some(Activity)
    else if s == "repository" then Some(Repository)
    else if s == "user_profile" then Some(UserProfile)
    else None
  }

  datatype ActivityType =
    | Push | PullRequest | Issue | IssueComment | CreateRepo
    | Star | Fork | Watch | Commit | Release | Unknown
  {
    function Name(): string {
      match this
      case Push => "PUSH"
      case PullRequest => "PULL_REQUEST"
      case Issue => "ISSUE"
      case IssueComment => "ISSUE_COMMENT"
      case CreateRepo => "CREATE_REPO"
      case Star => "STAR"
      case Fork => "FORK"
      case Watch => "WATCH"
      case Commit => "COMMIT"
      case Release => "RELEASE"
      case Unknown => "UNKNOWN"
    }

    function Value(): string {
      match this
      case Push => "push"
      case PullRequest => "pull_request"
      case Issue => "issue"
      case IssueComment => "issue_comment"
      case CreateRepo => "create_repo"
      case Star => "star"
      case Fork => "fork"
      case Watch => "watch"
      case Commit => "commit"
      case Release => "release"
      case Unknown => "unknown"
    }
  }

  /** The members in declaration order. */
  const AllActivityTypes: seq<ActivityType> :=
    [Push, PullRequest, Issue, IssueComment, CreateRepo, Star, Fork, Watch, Commit, Release, Unknown]

  function ParseActivityType(s: string): (r: Option<ActivityType>)
    ensures r.Some? ==> r.value.Value() == s
  {
    if s == "push" then Some(Push)
    else if s == "pull_request" then Some(PullRequest)
    else if s == "issue" then Some(Issue)
    else if s == "issue_comment" then Some(IssueComment)
    else if s == "create_repo" then Some(CreateRepo)
    else if s == "star" then Some(Star)
    else if s == "fork" then Some(Fork)
    else if s == "watch" then Some(Watch)
    else if s == "commit" then Some(Commit)
    else if s == "release" then Some(Release)
    else if s == "unknown" then Some(Unknown)
    else None
  }

  datatype RepositoryType = PublicRepo | PrivateRepo | ForkRepo | TemplateRepo | ArchivedRepo {
    function Name(): string {
      match this
      case PublicRepo => "PUBLIC"
      case PrivateRepo => "PRIVATE"
      case ForkRepo => "FORK"
      case TemplateRepo => "TEMPLATE"
      case ArchivedRepo => "ARCHIVED"
    }

    function Value(): string {
      match this
      case PublicRepo => "public"
      case PrivateRepo => "private"
      case ForkRepo => "fork"
      case TemplateRepo => "template"
      case ArchivedRepo => "archived"
    }
  }

  datatype RepositoryLanguage =
    | Python | JavaScript | TypeScript | Java | Go | Rust | Cpp | C | CSharp
    | Php | Ruby | Swift | Kotlin | Dart | Html | Css | Shell | Other
  {
    function Name(): string {
      match this
      case Python => "PYTHON"
      case JavaScript => "JAVASCRIPT"
      case TypeScript => "TYPESCRIPT"
      case Java => "JAVA"
      case Go => "GO"
      case Rust => "RUST"
      case Cpp => "CPP"
      case C => "C"
      case CSharp => "CSHARP"
      case Php => "PHP"
      case Ruby => "RUBY"
      case Swift => "SWIFT"
      case Kotlin => "KOTLIN"
      case Dart => "DART"
      case Html => "HTML"
      case Css => "CSS"
      case Shell => "SHELL"
      case Other => "OTHER"
    }

    function Value(): string {
      match this
      case Python => "python"
      case JavaScript => "javascript"
      case TypeScript => "typescript"
      case Java => "java"
      case Go => "go"
      case Rust => "rust"
      case Cpp => "cpp"
      case C => "c"
      case CSharp => "csharp"
      case Php => "php"
      case Ruby => "ruby"
      case Swift => "swift"
      case Kotlin => "kotlin"
      case Dart => "dart"
      case Html => "html"
      case Css => "css"
      case Shell => "shell"
      case Other => "other"
    }
  }

  /** The members in declaration order, the order `for lang in RepositoryLanguage` visits them. */
  const AllLanguages: seq<RepositoryLanguage> :=
    [Python, JavaScript, TypeScript, Java, Go, Rust, Cpp, C, CSharp,
     Php, Ruby, Swift, Kotlin, Dart, Html, Css, Shell, Other]

  /** Every member is listed exactly once in each `All…` sequence. */
  lemma AllMembersListed(m: ModelType, a: ActivityType, l: RepositoryLanguage)
    ensures m in AllModelTypes && a in AllActivityTypes && l in AllLanguages
    ensures forall i, j :: 0 <= i < j < |AllLanguages| ==> AllLanguages[i] != AllLanguages[j]
    ensures forall i, j :: 0 <= i < j < |AllActivityTypes| ==> AllActivityTypes[i] != AllActivityTypes[j]
  {
  }

  /** Lower-casing `upper` character by character gives `lower`. */
  lemma LowerByChars(upper: string, lower: string)
    requires |upper| == |lower|
    requires forall i :: 0 <= i < |upper| ==> LowerChar(upper[i]) == lower[i]
    ensures Lower(upper) == lower
  {
  }

  /** `auto()` in a `StrEnum` gives the lower-cased member name. */
  lemma AutoModelTypeValueIsLowerName(m: ModelType)
    ensures Lower(m.Name()) == m.Value()
  {
    LowerByChars(m.Name(), m.Value());
  }

  /** `auto()` in a `StrEnum` gives the lower-cased member name, for the activity types. */
  lemma AutoActivityValueIsLowerName(a: ActivityType)
    ensures Lower(a.Name()) == a.Value()
  {
    match a
    case Push => LowerByChars("PUSH", "push");
    case PullRequest => LowerByChars("PULL_REQUEST", "pull_request");
    case Issue => LowerByChars("ISSUE", "issue");
    case IssueComment => LowerByChars("ISSUE_COMMENT", "issue_comment");
    case CreateRepo => LowerByChars("CREATE_REPO", "create_repo");
    case Star => LowerByChars("STAR", "star");
    case Fork => LowerByChars("FORK", "fork");
    case Watch => LowerByChars("WATCH", "watch");
    case Commit => LowerByChars("COMMIT", "commit");
    case Release => LowerByChars("RELEASE", "release");
    case Unknown => LowerByChars("UNKNOWN", "unknown");
  }

  /** `auto()` in a `StrEnum` gives the lower-cased member name, for the repository types. */
  lemma AutoRepositoryTypeValueIsLowerName(r: RepositoryType)
    ensures Lower(r.Name()) == r.Value()
  {
    LowerByChars(r.Name(), r.Value());
  }

  /** `auto()` in a `StrEnum` gives the lower-cased member name, for the languages. */
  lemma AutoLanguageValueIsLowerName(l: RepositoryLanguage)
    ensures Lower(l.Name()) == l.Value()
  {
    match l
    case Python => LowerByChars("PYTHON", "python");
    case JavaScript => LowerByChars("JAVASCRIPT", "javascript");
    case TypeScript => LowerByChars("TYPESCRIPT", "typescript");
    case Java => LowerByChars("JAVA", "java");
    case Go => LowerByChars("GO", "go");
    case Rust => LowerByChars("RUST", "rust");
    case Cpp => LowerByChars("CPP", "cpp");
    case C => LowerByChars("C", "c");
    case CSharp => LowerByChars("CSHARP", "csharp");
    case Php => LowerByChars("PHP", "php");
    case Ruby => LowerByChars("RUBY", "ruby");
    case Swift => LowerByChars("SWIFT", "swift");
    case Kotlin => LowerByChars("KOTLIN", "kotlin");
    case Dart => LowerByChars("DART", "dart");
    case Html => LowerByChars("HTML", "html");
    case Css => LowerByChars("CSS", "css");
    case Shell => LowerByChars("SHELL", "shell");
    case Other => LowerByChars("OTHER", "other");
  }

  /** The value lookups invert `Value()`: each member is found from its value. */
  lemma ParseInvertsValue(m: ModelType, a: ActivityType)
    ensures ParseModelType(m.Value()) == Some(m)
    ensures ParseActivityType(a.Value()) == Some(a)
  {
  }

  /** Member values are distinct, so a value names one member. */
  lemma LanguageValuesDistinct(l1: RepositoryLanguage, l2: RepositoryLanguage)
    ensures l1.Value() == l2.Value() ==> l1 == l2
  {
  }
}
