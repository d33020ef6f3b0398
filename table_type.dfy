/**
 * The kinds of GitHub-backed tables and their snake_case names, as the
 * `Display`/`FromStr`/`EnumIter` derivations of `GithubTableType` give them.
 */
module GithubTypes {
  import opened Common

  datatype GithubTableType = Comments | Info | Issues | PullRequests

  /** `to_string()`: the variant's name in snake_case. */
  function Name(t: GithubTableType): (s: string)
    ensures |s| > 0 && s[0] != '_' && s[|s| - 1] != '_'
    ensures forall i :: 0 <= i < |s| ==> 'a' <= s[i] <= 'z' || s[i] == '_'
  {
    match t
    case Comments => "comments"
    case Info => "info"
    case Issues => "issues"
    case PullRequests => "pull_requests"
  }

  /** `str::parse`: only the four exact snake_case names are accepted. */
  function Parse(s: string): (r: Option<GithubTableType>)
    ensures r.Some? ==> Name(r.value) == s
    ensures r.None? <==> forall t: GithubTableType :: Name(t) != s
  {
    if s == "comments" then Some(Comments)
    else if s == "info" then Some(Info)
    else if s == "issues" then Some(Issues)
    else if s == "pull_requests" then Some(PullRequests)
    else None
  }

  /** A variant's position in the enum's declaration. */
  function Ordinal(t: GithubTableType): nat {
    match t
    case Comments => 0
    case Info => 1
    case Issues => 2
    case PullRequests => 3
  }

  /** `GithubTableType::iter()`: every variant once, in declaration order. */
  function AllTableTypes(): (r: seq<GithubTableType>)
    ensures |r| == 4
    ensures forall i :: 0 <= i < |r| ==> Ordinal(r[i]) == i
    ensures forall t: GithubTableType :: t in r
    ensures forall i, j :: 0 <= i < j < |r| ==> r[i] != r[j]
  {
    EveryVariantListed();
    [Comments, Info, Issues, PullRequests]
  }

  lemma EveryVariantListed()
    ensures forall t: GithubTableType :: t in [Comments, Info, Issues, PullRequests]
  {
    forall t: GithubTableType ensures t in [Comments, Info, Issues, PullRequests] {
      match t
      case Comments => assert [Comments, Info, Issues, PullRequests][0] == t;
      case Info => assert [Comments, Info, Issues, PullRequests][1] == t;
      case Issues => assert [Comments, Info, Issues, PullRequests][2] == t;
      case PullRequests => assert [Comments, Info, Issues, PullRequests][3] == t;
    }
  }

  /** Parsing a name gives back the variant: display and parse are inverse. */
  lemma ParseName(t: GithubTableType)
    ensures Parse(Name(t)) == Some(t)
  {
  }

  /** Distinct variants have distinct names. */
  lemma NameInjective(t: GithubTableType, u: GithubTableType)
    ensures Name(t) == Name(u) ==> t == u
  {
  }
}
