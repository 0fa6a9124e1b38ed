/** The .hotline name registry (orchestrator/src/lib/hotlinens.ts and its tables in db.ts). */
module Names {
  import opened Text
  import opened Tables
  import opened Payees

  /** The rows of `hotline_names` without those of p. */
  function Without(names: map<string, Phone>, p: Phone): map<string, Phone> {
    map n | n in names && names[n] != p :: names[n]
  }

  /** `claimName` with `claimHotlineName`: None when it throws. */
  function Claim(s: State, p: Phone, raw: string): Option<State> {
    var n := NormalizeLabel(raw);
    if !ValidName(n) || (n in s.names && s.names[n] != p) || p !in s.users then None
    else Some(s.(names := Without(s.names, p)[n := p]).PutUser(p, s.users[p].(hotlineName := Some(n))))
  }

  /** `releaseHotlineName`. */
  function Release(s: State, p: Phone): State {
    var t := s.(names := Without(s.names, p));
    if p in s.users then t.PutUser(p, s.users[p].(hotlineName := None)) else t
  }

  /** `lookupName`: the phone a label leads to. */
  function Lookup(s: State, raw: string): Option<Phone> {
    var n := NormalizeLabel(raw);
    if n != "" && n in s.names && s.names[n] in s.users then Some(s.names[n]) else None
  }

  method ClaimName(desk: Desk, p: Phone, raw: string) returns (ok: bool)
    modifies desk
    ensures ok == Claim(old(desk.Now()), p, raw).Some?
    ensures desk.Now() == Claim(old(desk.Now()), p, raw).Or(old(desk.Now()))
  {
    var n := NormalizeLabel(raw);
    if !ValidName(n) || (n in desk.names && desk.names[n] != p) || p !in desk.users {
      return false;
    }
    desk.names := Without(desk.names, p)[n := p];
    desk.SetUser(p, desk.users[p].(hotlineName := Some(n)));
    ok := true;
  }

  method ReleaseName(desk: Desk, p: Phone)
    modifies desk
    ensures desk.Now() == Release(old(desk.Now()), p)
  {
    desk.names := Without(desk.names, p);
    if p in desk.users {
      desk.SetUser(p, desk.users[p].(hotlineName := None));
    }
  }
}
