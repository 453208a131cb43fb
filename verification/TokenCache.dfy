/** The token verifier with its set-once fingerprint cache in front of PBKDF2 (src/secret.rs,
    `TokenVerifier::verify`). SHA-256 and the PBKDF2 check (section 5.2 of RFC 8018) are
    arbitrary functions. */
module TokenCache {
  import opened TaskModel

  type Token = seq<Byte>
  type Digest = seq<Byte>

  /** The fingerprint of a token, and the check of a token against the stored PHC string. */
  datatype Digests = Digests(fingerprint: Token -> Digest, accepts: Token -> bool)

  const MAX_TOKEN: nat := 4096
  const NUL: Byte := 0
  const LF: Byte := 10
  const CR: Byte := 13

  predicate WellFormed(token: Token) {
    |token| <= MAX_TOKEN && CR !in token && LF !in token && NUL !in token
  }

  /** The answer without a cache. */
  predicate Uncached(d: Digests, token: Token) {
    WellFormed(token) && d.accepts(token)
  }

  /** On accepted tokens the two digests tell the same tokens apart. */
  ghost predicate CollisionFree(d: Digests) {
    forall t: Token, u: Token :: WellFormed(t) && WellFormed(u) && d.accepts(t) ==>
      (d.accepts(u) <==> d.fingerprint(u) == d.fingerprint(t))
  }

  // ---- One call without interference ----

  datatype Kind = Sha256(expected: Digest) | Pbkdf2

  class TokenVerifier {
    const d: Digests
    const kind: Kind
    var successful: Option<Digest>

    ghost predicate Valid()
      reads this
    {
      CacheOk(d, successful)
    }

    constructor (d: Digests, kind: Kind)
      ensures Valid() && this.d == d && this.kind == kind && successful == None
    {
      this.d, this.kind, this.successful := d, kind, None;
    }

    method Verify(token: Token) returns (ok: bool)
      requires Valid()
      modifies this
      ensures Valid()
      ensures kind.Sha256? ==> (ok <==> WellFormed(token) && d.fingerprint(token) == kind.expected) && successful == old(successful)
      ensures kind.Pbkdf2? && CollisionFree(d) ==> (ok <==> Uncached(d, token))
      ensures kind.Pbkdf2? ==>
                (ok <==> WellFormed(token) &&
                         if old(successful).Some? then d.fingerprint(token) == old(successful).value else d.accepts(token))
      ensures kind.Pbkdf2? ==> successful == if ok && old(successful).None? then Some(d.fingerprint(token)) else old(successful)
    {
      if |token| > MAX_TOKEN || CR in token || LF in token || NUL in token {
        return false;
      }
      var supplied := d.fingerprint(token);
      match kind
      case Sha256(expected) =>
        ok := supplied == expected;
      case Pbkdf2 =>
        if successful.Some? {
          CacheAnswers(d, successful, token);
          return supplied == successful.value;
        }
        ok := d.accepts(token);
        if ok {
          successful := Some(supplied);
        }
    }
  }

  /** The cache holds the fingerprint of an accepted token, or nothing. */
  ghost predicate CacheOk(d: Digests, cell: Option<Digest>) {
    cell.Some? ==> exists t :: Uncached(d, t) && d.fingerprint(t) == cell.value
  }

  lemma CacheAnswers(d: Digests, cell: Option<Digest>, token: Token)
    requires CacheOk(d, cell) && cell.Some? && WellFormed(token)
    ensures CollisionFree(d) ==> (d.fingerprint(token) == cell.value <==> Uncached(d, token))
  {
    var t :| Uncached(d, t) && d.fingerprint(t) == cell.value;
    assert WellFormed(t) && d.accepts(t);
  }

  // ---- Any number of interleaved calls ----

  datatype Call =
    | Started(token: Token)
    | Missed(token: Token)                      // well-formed, cache empty: PBKDF2 is running
    | Hashed(token: Token, verified: bool)
    | Answered(token: Token, answer: bool)

  datatype State = State(cell: Option<Digest>, calls: map<nat, Call>)

  datatype Action = Begin(i: nat, token: Token) | Lookup(i: nat) | Hash(i: nat) | Finish(i: nat)

  function Init(): State { State(None, map[]) }

  predicate Enabled(s: State, a: Action) {
    match a
    case Begin(i, _) => i !in s.calls
    case Lookup(i) => i in s.calls && s.calls[i].Started?
    case Hash(i) => i in s.calls && s.calls[i].Missed?
    case Finish(i) => i in s.calls && s.calls[i].Hashed?
  }

  function LookedUp(d: Digests, cell: Option<Digest>, token: Token): Call {
    if !WellFormed(token) then Answered(token, false)
    else if cell.Some? then Answered(token, d.fingerprint(token) == cell.value)
    else Missed(token)
  }

  function Step(d: Digests, s: State, a: Action): State
    requires Enabled(s, a)
  {
    match a
    case Begin(i, token) => s.(calls := s.calls[i := Started(token)])
    case Lookup(i) => s.(calls := s.calls[i := LookedUp(d, s.cell, s.calls[i].token)])
    case Hash(i) => s.(calls := s.calls[i := Hashed(s.calls[i].token, d.accepts(s.calls[i].token))])
    case Finish(i) =>
      var c := s.calls[i];
      // OnceLock::set keeps the first value
      State(if c.verified && s.cell.None? then Some(d.fingerprint(c.token)) else s.cell,
            s.calls[i := Answered(c.token, c.verified)])
  }

  predicate CanRun(d: Digests, s: State, acts: seq<Action>)
    decreases |acts|
  {
    acts == [] || (Enabled(s, acts[0]) && CanRun(d, Step(d, s, acts[0]), acts[1..]))
  }

  function Run(d: Digests, s: State, acts: seq<Action>): State
    requires CanRun(d, s, acts)
    decreases |acts|
  {
    if acts == [] then s else Run(d, Step(d, s, acts[0]), acts[1..])
  }

  /** Every answer given is the answer without a cache. */
  predicate Correct(d: Digests, s: State) {
    forall i :: i in s.calls && s.calls[i].Answered? ==> s.calls[i].answer == Uncached(d, s.calls[i].token)
  }

  predicate CallOk(d: Digests, c: Call) {
    match c
    case Started(_) => true
    case Missed(token) => WellFormed(token)
    case Hashed(token, verified) => WellFormed(token) && verified == d.accepts(token)
    case Answered(token, answer) => answer == Uncached(d, token)
  }

  ghost predicate Inv(d: Digests, s: State) {
    CacheOk(d, s.cell) && forall i :: i in s.calls ==> CallOk(d, s.calls[i])
  }

  lemma StepKeepsInv(d: Digests, s: State, a: Action)
    requires CollisionFree(d) && Inv(d, s) && Enabled(s, a)
    ensures Inv(d, Step(d, s, a))
  {
    if a.Lookup? && s.cell.Some? && WellFormed(s.calls[a.i].token) {
      CacheAnswers(d, s.cell, s.calls[a.i].token);
    }
    if a.Finish? {
      assert CallOk(d, s.calls[a.i]);
    }
  }

  lemma {:induction false} RunKeepsInv(d: Digests, s: State, acts: seq<Action>)
    requires CollisionFree(d) && Inv(d, s) && CanRun(d, s, acts)
    ensures Inv(d, Run(d, s, acts))
    decreases |acts|
  {
    if acts != [] {
      StepKeepsInv(d, s, acts[0]);
      RunKeepsInv(d, Step(d, s, acts[0]), acts[1..]);
    }
  }

  /** A token verified first puts its fingerprint in the cache; a second token is then judged by
      fingerprint alone. */
  lemma SecondIsJudgedByFingerprint(d: Digests, t: Token, u: Token) returns (acts: seq<Action>)
    requires Uncached(d, t) && WellFormed(u)
    ensures CanRun(d, Init(), acts)
    ensures var s := Run(d, Init(), acts);
            1 in s.calls && s.calls[1] == Answered(u, d.fingerprint(u) == d.fingerprint(t))
  {
    var s1 := Step(d, Init(), Begin(0, t));
    var s2 := Step(d, s1, Lookup(0));
    var s3 := Step(d, s2, Hash(0));
    var s4 := Step(d, s3, Finish(0));
    var s5 := Step(d, s4, Begin(1, u));
    acts := Prepend(d, s5, Lookup(1), []);
    acts := Prepend(d, s4, Begin(1, u), acts);
    acts := Prepend(d, s3, Finish(0), acts);
    acts := Prepend(d, s2, Hash(0), acts);
    acts := Prepend(d, s1, Lookup(0), acts);
    acts := Prepend(d, Init(), Begin(0, t), acts);
  }

  lemma Prepend(d: Digests, s: State, a: Action, acts: seq<Action>) returns (acts': seq<Action>)
    requires Enabled(s, a) && CanRun(d, Step(d, s, a), acts)
    ensures CanRun(d, s, acts') && Run(d, s, acts') == Run(d, Step(d, s, a), acts)
  {
    acts' := [a] + acts;
    assert acts'[1..] == acts;
  }

  /** For every interleaving, also of several first verifications that race to fill the cache, the
      cached answers are the uncached ones; and this holds only if the digests are collision-free
      on accepted tokens. */
  lemma CachedEqualsUncached(d: Digests)
    ensures (forall acts :: CanRun(d, Init(), acts) ==> Correct(d, Run(d, Init(), acts))) <==> CollisionFree(d)
  {
    if CollisionFree(d) {
      forall acts | CanRun(d, Init(), acts) ensures Correct(d, Run(d, Init(), acts)) {
        RunKeepsInv(d, Init(), acts);
        forall i | i in Run(d, Init(), acts).calls && Run(d, Init(), acts).calls[i].Answered?
          ensures Run(d, Init(), acts).calls[i].answer == Uncached(d, Run(d, Init(), acts).calls[i].token)
        {
          assert CallOk(d, Run(d, Init(), acts).calls[i]);
        }
      }
    } else {
      var t: Token, u: Token :| WellFormed(t) && WellFormed(u) && d.accepts(t)
                                && (d.accepts(u) <==> d.fingerprint(u) != d.fingerprint(t));
      var acts := SecondIsJudgedByFingerprint(d, t, u);
      assert !Correct(d, Run(d, Init(), acts));
    }
  }

  // ---- The cache is set once ----

  /** Once filled, the cache never changes, whatever digests collide. */
  lemma {:induction false} CacheIsSetOnce(d: Digests, s: State, acts: seq<Action>)
    requires CanRun(d, s, acts) && s.cell.Some?
    ensures Run(d, s, acts).cell == s.cell
    decreases |acts|
  {
    if acts != [] {
      CacheIsSetOnce(d, Step(d, s, acts[0]), acts[1..]);
    }
  }

  predicate SomeAccepted(s: State) {
    exists i :: i in s.calls && s.calls[i].Answered? && s.calls[i].answer
  }

  lemma AcceptedStays(s: State, s': State, i: nat)
    requires SomeAccepted(s) && (i in s.calls ==> !s.calls[i].Answered?)
    requires i in s'.calls && s'.calls == s.calls[i := s'.calls[i]]
    ensures SomeAccepted(s')
  {
    var k :| k in s.calls && s.calls[k].Answered? && s.calls[k].answer;
    assert k in s'.calls && s'.calls[k] == s.calls[k];
  }

  lemma StepKeepsFilled(d: Digests, s: State, a: Action)
    requires (s.cell.Some? <==> SomeAccepted(s)) && Enabled(s, a)
    ensures Step(d, s, a).cell.Some? <==> SomeAccepted(Step(d, s, a))
  {
    var s' := Step(d, s, a);
    if SomeAccepted(s) {
      AcceptedStays(s, s', a.i);
    } else if SomeAccepted(s') {
      var k :| k in s'.calls && s'.calls[k].Answered? && s'.calls[k].answer;
      assert k == a.i;
    }
    if a.Finish? && s.calls[a.i].verified {
      assert a.i in s'.calls && s'.calls[a.i].Answered? && s'.calls[a.i].answer;
    }
  }

  lemma {:induction false} RunKeepsFilled(d: Digests, s: State, acts: seq<Action>)
    requires (s.cell.Some? <==> SomeAccepted(s)) && CanRun(d, s, acts)
    ensures Run(d, s, acts).cell.Some? <==> SomeAccepted(Run(d, s, acts))
    decreases |acts|
  {
    if acts != [] {
      StepKeepsFilled(d, s, acts[0]);
      RunKeepsFilled(d, Step(d, s, acts[0]), acts[1..]);
    }
  }

  /** Over every run, with any digests, the cache is filled exactly when some call has been told
      that its token is right. */
  lemma FilledIffAccepted(d: Digests, acts: seq<Action>)
    requires CanRun(d, Init(), acts)
    ensures Run(d, Init(), acts).cell.Some? <==> SomeAccepted(Run(d, Init(), acts))
  {
    RunKeepsFilled(d, Init(), acts);
  }
}
