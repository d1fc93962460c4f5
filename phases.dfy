/** The lifecycle phases of a project and their textual names, as they
    appear in the persisted state record (`State` in create_project.py). */
module Phases {

  datatype State = SETUP | GENERATE | DEPLOY | DESTROY

  /** The enum member's `name`: the token written to the state record. */
  function Name(s: State): (r: string)
    ensures |r| > 0
  {
    match s
    case SETUP => "SETUP"
    case GENERATE => "GENERATE"
    case DEPLOY => "DEPLOY"
    case DESTROY => "DESTROY"
  }

  /** True when `s` is the exact (case-sensitive) name of some phase. */
  predicate IsName(s: string) {
    s == "SETUP" || s == "GENERATE" || s == "DEPLOY" || s == "DESTROY"
  }

  /** Lookup by member name with a soft fallback: an unknown token gives
      SETUP instead of raising (the warning that is logged is not modelled). */
  function FromString(s: string): (r: State)
    ensures IsName(s) ==> Name(r) == s
    ensures !IsName(s) ==> r == SETUP
  {
    if s == "GENERATE" then GENERATE
    else if s == "DEPLOY" then DEPLOY
    else if s == "DESTROY" then DESTROY
    else SETUP
  }

  /** Every phase survives being written by name and read back. */
  lemma NameRoundTrip(p: State)
    ensures IsName(Name(p))
    ensures FromString(Name(p)) == p
  {
  }

  /** Two names never denote the same phase, so the lookup is exact. */
  lemma NameInjective(p: State, q: State)
    ensures Name(p) == Name(q) <==> p == q
  {
  }
}
