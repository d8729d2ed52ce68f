// One-time use of time-based codes: verifyTOTP() (src/api/2fa.c:83-93, 242-328), section
// 5.2 of RFC 6238. The keyed hash is an arbitrary function of the key and the time step.
module Totp {
  import opened Records
  import opened OverTime
  import opened Base32

  const X := 30
  const SECRET_LEN := 20
  const UINT64_RANGE := 0x1_0000_0000_0000_0000

  datatype Verdict = Correct | Invalid | Reused | RateLimit

  type Hotp = (seq<nat>, nat) -> nat

  // The time step of a time, as C computes it: truncated, then cast to 64 unsigned bits
  function Counter(t: int): nat {
    CDiv(t, X) % UINT64_RANGE
  }

  // The three steps tried, oldest first
  function Window(now: int): seq<nat> {
    [Counter(now - X), Counter(now), Counter(now + X)]
  }

  /** From any later time than half a minute after the epoch on, the steps tried are the
      current one and its neighbours. */
  lemma WindowSteps(now: int)
    requires X <= now < UINT64_RANGE
    ensures var t := now / X; Window(now) == [t - 1, t, t + 1]
  {
  }

  /** Two of the times of appendix B of RFC 6238 and their steps. */
  lemma KnownSteps()
    ensures Window(59)[1] == 1 && Window(1111111109)[1] == 0x23523EC
    ensures Window(1111111109) == [0x23523EB, 0x23523EC, 0x23523ED]
  {
  }

  // ---- One attempt ----

  datatype Attempt = Attempt(now: int, secret: Option<string>, code: nat)

  datatype State = State(lastAttempt: int, lastCounter: nat)

  // The key of a configured secret
  function Key(secret: Option<string>): Option<seq<nat>> {
    if secret.None? || secret.value == "" then None else DecodeB32(secret.value, SECRET_LEN)
  }

  /** A secret is at most 32 letters of base 32, and its key has 20 bytes. */
  lemma KeyLength(secret: string)
    ensures Key(Some(secret)).Some? ==> |Key(Some(secret)).value| == 20 && 0 < |secret| <= 32
  {
  }

  ghost predicate Matches(key: seq<nat>, step: nat, code: nat, h: Hotp) {
    h(key, step) == code
  }

  // The first step of the window that matches and is newer than the last accepted one
  ghost function FirstFresh(steps: seq<nat>, key: seq<nat>, last: nat, code: nat, h: Hotp): (r: Option<nat>)
    ensures r.Some? ==> r.value in steps && r.value > last && Matches(key, r.value, code, h)
    ensures r.None? ==> forall i :: 0 <= i < |steps| && Matches(key, steps[i], code, h) ==> steps[i] <= last
  {
    if steps == [] then None
    else if Matches(key, steps[0], code, h) && steps[0] > last then Some(steps[0])
    else
      var r := FirstFresh(steps[1..], key, last, code, h);
      assert r.None? ==> forall i :: 1 <= i < |steps| && Matches(key, steps[i], code, h) ==> steps[1..][i - 1] <= last;
      r
  }

  /** What an attempt must answer: a code is correct exactly if it belongs to a step of the
      window that is newer than every accepted one, and reused exactly if it belongs to
      steps of the window none of which is. */
  ghost predicate Judged(s: State, a: Attempt, h: Hotp, v: Verdict, t: State) {
    if a.now == s.lastAttempt then v == RateLimit && t == s
    else
      match Key(a.secret)
      case None => v == Invalid && t == s.(lastAttempt := a.now)
      case Some(key) =>
        var step := FirstFresh(Window(a.now), key, s.lastCounter, a.code, h);
        if step.Some? then v == Correct && t == State(a.now, step.value)
        else
          && t == s.(lastAttempt := a.now)
          && (v == Reused || v == Invalid)
          && (v == Reused <==> exists i :: 0 <= i < 3 && Matches(key, Window(a.now)[i], a.code, h))
  }

  class Verifier {
    var lastAttempt: int
    var lastCounter: nat

    ghost function Snap(): State
      reads this
    {
      State(lastAttempt, lastCounter)
    }

    constructor ()
      ensures Snap() == State(0, 0)
    {
      lastAttempt, lastCounter := 0, 0;
    }

    /** verifyTOTP() */
    method Verify(a: Attempt, h: Hotp) returns (v: Verdict)
      modifies this
      ensures Judged(old(Snap()), a, h, v, Snap())
    {
      if a.now == lastAttempt {
        return RateLimit;
      }
      lastAttempt := a.now;
      if a.secret.None? || a.secret.value == "" {
        return Invalid;
      }
      var key := Decode(a.secret.value, SECRET_LEN);
      if key.None? {
        return Invalid;
      }
      hide DecodeB32, Counter, FirstFresh, Matches;
      var step: nat;
      v, step := TryWindow(a.now, key.value, lastCounter, a.code, h);
      if v == Correct {
        lastCounter := step;
      }
    }
  }

  // The loop over the three steps; a reuse is only reported after all of them
  method TryWindow(now: int, key: seq<nat>, last: nat, code: nat, h: Hotp) returns (v: Verdict, step: nat)
    ensures v == Correct || v == Reused || v == Invalid
    ensures v == Correct <==> FirstFresh(Window(now), key, last, code, h).Some?
    ensures v == Correct ==> FirstFresh(Window(now), key, last, code, h) == Some(step)
    ensures v == Reused ==> exists k :: 0 <= k < 3 && Matches(key, Window(now)[k], code, h)
    ensures v == Invalid ==> forall k :: 0 <= k < 3 ==> !Matches(key, Window(now)[k], code, h)
  {
    var reused := false;
    var i := -1;
    ghost var steps := Window(now);
    hide Counter;
    while i <= 1
      invariant -1 <= i <= 2
      invariant FirstFresh(steps[i + 1..], key, last, code, h) == FirstFresh(steps, key, last, code, h)
      invariant reused <==> exists k :: 0 <= k < i + 1 && Matches(key, steps[k], code, h)
      decreases 2 - i
    {
      var counter := Counter(now + i * X);
      assert counter == steps[i + 1] && steps[i + 1..][1..] == steps[i + 2..];
      if h(key, counter) == code {
        if counter > last {
          return Correct, counter;
        }
        reused := true;
        assert Matches(key, steps[i + 1], code, h);
      }
      i := i + 1;
    }
    return if reused then Reused else Invalid, 0;
  }

  // ---- Any sequence of attempts ----

  // A run: the attempts, the answers, and the states between them
  ghost predicate Run(states: seq<State>, attempts: seq<Attempt>, answers: seq<Verdict>, h: Hotp) {
    && |states| == |attempts| + 1 && |answers| == |attempts|
    && states[0] == State(0, 0)
    && forall i :: 0 <= i < |attempts| ==> Judged(states[i], attempts[i], h, answers[i], states[i + 1])
  }

  lemma StepUp(s: State, a: Attempt, h: Hotp, v: Verdict, t: State)
    requires Judged(s, a, h, v, t)
    ensures s.lastCounter <= t.lastCounter
    ensures v == Correct <==> s.lastCounter < t.lastCounter
    ensures v == Correct ==> t.lastCounter in Window(a.now) && Key(a.secret).Some? && Matches(Key(a.secret).value, t.lastCounter, a.code, h)
  {
    hide Key, Window;
  }

  lemma {:induction false} NeverBack(states: seq<State>, attempts: seq<Attempt>, answers: seq<Verdict>, h: Hotp, i: nat, j: nat)
    requires Run(states, attempts, answers, h) && i <= j <= |attempts|
    ensures states[i].lastCounter <= states[j].lastCounter
    decreases j - i
  {
    if i < j {
      NeverBack(states, attempts, answers, h, i, j - 1);
      StepUp(states[j - 1], attempts[j - 1], h, answers[j - 1], states[j]);
    }
  }

  /** In every run, whatever the clock, the codes and the secrets: each accepted code
      belongs to a time step of its window, and of two accepted attempts the later one used
      a strictly later step. So no step is accepted twice. */
  lemma RunsAcceptOnce(states: seq<State>, attempts: seq<Attempt>, answers: seq<Verdict>, h: Hotp, i: nat, j: nat)
    requires Run(states, attempts, answers, h) && i < j < |attempts|
    requires answers[i] == Correct && answers[j] == Correct
    ensures states[i + 1].lastCounter < states[j + 1].lastCounter
    ensures states[i + 1].lastCounter in Window(attempts[i].now) && states[j + 1].lastCounter in Window(attempts[j].now)
  {
    NeverBack(states, attempts, answers, h, i + 1, j);
    StepUp(states[i], attempts[i], h, answers[i], states[i + 1]);
    StepUp(states[j], attempts[j], h, answers[j], states[j + 1]);
  }

  /** A code that matches a step of the window newer than every accepted one is accepted:
      it is never called reused, not even if it matches an older step as well. */
  lemma FreshIsAccepted(s: State, a: Attempt, h: Hotp, v: Verdict, t: State, key: seq<nat>, k: nat)
    requires Judged(s, a, h, v, t) && a.now != s.lastAttempt && Key(a.secret) == Some(key)
    requires k < 3 && Matches(key, Window(a.now)[k], a.code, h) && Window(a.now)[k] > s.lastCounter
    ensures v == Correct
  {
    hide Key, Counter;
    var steps := Window(a.now);
    assert steps[k] > s.lastCounter;
  }
}
