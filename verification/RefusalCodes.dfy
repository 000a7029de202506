/**
 * Which refusals are final: exactly the spellings of fourteen names (internal/engine/refusal.go), and after one of them
 * nothing is charged any more.
 */
module RefusalCodes {
  import opened Wrappers
  import opened Protocol
  import opened Model
  import opened Engine
  import opened Scheduler
  import opened System
  import opened Growth
  import opened StepSafety
  import opened Arrivals
  import opened Runs
  import opened Claims
  import opened Dunning
  import opened Arrears
  import opened Billing

  // ---------- spellings ----------

  /** Cards that are gone, and the codes of Adyen for them. */
  const FINAL_NAMES := [
    "STOLEN", "INVALID", "CLOSED", "REVOKED", "STOLEN_CARD", "INVALID_CARD", "INVALID_CARD_NUMBER", "EXPIRED_CARD",
    "RESTRICTED_CARD", "BLOCKED_CARD", "6", "8", "5", "25"
  ]

  /** A character of a name may be written as itself, a letter also in lower case (which includes two letters beyond
      ASCII), an underscore also as a blank. */
  predicate Writes(c: char, n: char) {
    || c == n
    || ('A' <= n <= 'Z' && c as int == n as int + 32)
    || (n == 'I' && c == '\U{0131}') || (n == 'S' && c == '\U{017F}')
    || (n == '_' && c == ' ')
  }

  predicate Blank(s: string) {
    forall c :: c in s ==> IsSpace(c)
  }

  /** From position `i` on the code spells the name; around it there is white space only. */
  predicate SpellsAt(code: string, name: string, i: nat) {
    && i + |name| <= |code| && Blank(code[..i]) && Blank(code[i + |name|..])
    && forall k :: 0 <= k < |name| ==> Writes(code[i + k], name[k])
  }

  ghost predicate Spells(code: string, name: string) {
    exists i: nat :: SpellsAt(code, name, i)
  }

  // ---------- trimming ----------

  /** What is trimmed off is white space, at both ends, and nothing more can be. */
  lemma {:induction false} TrimShape(s: string) returns (i: nat)
    ensures i + |Trim(s)| <= |s| && Trim(s) == s[i..i + |Trim(s)|] && Blank(s[..i]) && Blank(s[i + |Trim(s)|..])
    decreases |s|
  {
    i := 0;
    if s != "" && IsSpace(s[0]) {
      var j := TrimShape(s[1..]);
      i := j + 1;
      var n := |Trim(s)|;
      assert s[..i] == [s[0]] + s[1..][..j];
      assert s[1..][j..j + n] == s[i..i + n];
      assert s[1..][j + n..] == s[i + n..];
    } else if s != "" && IsSpace(s[|s| - 1]) {
      i := TrimShape(s[..|s| - 1]);
      var n := |Trim(s)|;
      assert s[..|s| - 1][..i] == s[..i];
      assert s[..|s| - 1][i..i + n] == s[i..i + n];
      assert s[i + n..] == s[..|s| - 1][i + n..] + [s[|s| - 1]];
    }
  }

  /** A part that starts and ends with something else than white space, with nothing but white space around it, is what
      is left. */
  lemma {:induction false} TrimFinds(s: string, i: nat, n: nat)
    requires 0 < n && i + n <= |s| && Blank(s[..i]) && Blank(s[i + n..]) && !IsSpace(s[i]) && !IsSpace(s[i + n - 1])
    ensures Trim(s) == s[i..i + n]
    decreases |s|
  {
    if i > 0 {
      assert s[0] in s[..i];
      assert s[1..][..i - 1] == s[..i][1..] && s[1..][i - 1 + n..] == s[i + n..]
             && s[1..][i - 1..i - 1 + n] == s[i..i + n];
      TrimFinds(s[1..], i - 1, n);
    } else if i + n < |s| {
      assert s[|s| - 1] in s[i + n..];
      assert s[..|s| - 1][i + n..] == s[i + n..][..|s| - 1 - i - n] && s[..|s| - 1][i..i + n] == s[i..i + n];
      assert s[..|s| - 1][..i] == s[..i];
      TrimFinds(s[..|s| - 1], i, n);
    } else {
      assert s[i..i + n] == s;
    }
  }

  // ---------- folding ----------

  /** How a code is compared: letters in upper case, blanks as underscores. */
  function Folded(c: char): char {
    if c == ' ' then '_' else UpperChar(c)
  }

  predicate NameChar(n: char) {
    'A' <= n <= 'Z' || '0' <= n <= '9' || n == '_'
  }

  lemma FoldedWrites(c: char, n: char)
    requires NameChar(n)
    ensures Folded(c) == n <==> Writes(c, n)
  {
  }

  lemma WrittenSolid(c: char, n: char)
    requires Writes(c, n) && ('A' <= n <= 'Z' || '0' <= n <= '9')
    ensures !IsSpace(c)
  {
  }

  predicate Proper(name: string) {
    && name != "" && (forall k :: 0 <= k < |name| ==> NameChar(name[k]))
    && name[0] != '_' && name[|name| - 1] != '_'
  }

  lemma ProperNames(i: nat)
    requires i < |FINAL_NAMES|
    ensures Proper(FINAL_NAMES[i]) && FINAL_NAMES[i] in FINAL_CODES
  {
  }

  lemma NamesComplete(name: string)
    requires name in FINAL_CODES
    ensures name in FINAL_NAMES
  {
    assert FINAL_NAMES[0] == "STOLEN" && FINAL_NAMES[1] == "INVALID" && FINAL_NAMES[2] == "CLOSED"
           && FINAL_NAMES[3] == "REVOKED" && FINAL_NAMES[4] == "STOLEN_CARD" && FINAL_NAMES[5] == "INVALID_CARD"
           && FINAL_NAMES[6] == "INVALID_CARD_NUMBER" && FINAL_NAMES[7] == "EXPIRED_CARD"
           && FINAL_NAMES[8] == "RESTRICTED_CARD" && FINAL_NAMES[9] == "BLOCKED_CARD" && FINAL_NAMES[10] == "6"
           && FINAL_NAMES[11] == "8" && FINAL_NAMES[12] == "5" && FINAL_NAMES[13] == "25";
  }

  function FoldedAll(s: string): string {
    seq(|s|, i requires 0 <= i < |s| => Folded(s[i]))
  }

  lemma Comparison(code: string)
    ensures IsRetryableRefusal(code) <==> FoldedAll(Trim(code)) !in FINAL_CODES
  {
    var c := Trim(code);
    assert seq(|c|, i requires 0 <= i < |c| => if c[i] == ' ' then '_' else UpperChar(c[i])) == FoldedAll(c);
  }

  lemma SpelledFolds(code: string, name: string, i: nat)
    requires Proper(name) && SpellsAt(code, name, i)
    ensures FoldedAll(Trim(code)) == name
  {
    hide IsSpace, Writes, Folded;
    WrittenSolid(code[i], name[0]);
    WrittenSolid(code[i + |name| - 1], name[|name| - 1]);
    TrimFinds(code, i, |name|);
    forall k | 0 <= k < |name| ensures Folded(code[i..i + |name|][k]) == name[k] {
      FoldedWrites(code[i + k], name[k]);
    }
  }

  lemma FoldedSpells(code: string, name: string)
    requires Proper(name) && FoldedAll(Trim(code)) == name
    ensures Spells(code, name)
  {
    hide IsSpace, Writes, Folded;
    var i := TrimShape(code);
    forall k | 0 <= k < |name| ensures Writes(code[i + k], name[k]) {
      assert Folded(code[i..i + |name|][k]) == FoldedAll(Trim(code))[k];
      FoldedWrites(code[i + k], name[k]);
    }
    assert SpellsAt(code, name, i);
  }

  ghost predicate FinalCode(code: string) {
    exists j: nat :: j < |FINAL_NAMES| && Spells(code, FINAL_NAMES[j])
  }

  /** A refusal is final if and only if its code spells one of the fourteen names. */
  lemma FinalExactly(code: string)
    ensures !IsRetryableRefusal(code) <==> FinalCode(code)
  {
    hide IsRetryableRefusal, Spells, FoldedAll, Proper;
    Comparison(code);
    if j: nat :| j < |FINAL_NAMES| && Spells(code, FINAL_NAMES[j]) {
      SpelledFinal(code, j);
    }
    if FoldedAll(Trim(code)) in FINAL_CODES {
      FoldedFinal(code);
    }
  }

  lemma SpelledFinal(code: string, j: nat)
    requires j < |FINAL_NAMES| && Spells(code, FINAL_NAMES[j])
    ensures FoldedAll(Trim(code)) in FINAL_CODES
  {
    hide FoldedAll, Proper, SpellsAt;
    ProperNames(j);
    var i: nat :| SpellsAt(code, FINAL_NAMES[j], i);
    SpelledFolds(code, FINAL_NAMES[j], i);
  }

  lemma FoldedFinal(code: string)
    requires FoldedAll(Trim(code)) in FINAL_CODES
    ensures FinalCode(code)
  {
    hide FoldedAll, Proper, Spells;
    NamesComplete(FoldedAll(Trim(code)));
    var j: nat :| j < |FINAL_NAMES| && FINAL_NAMES[j] == FoldedAll(Trim(code));
    ProperNames(j);
    FoldedSpells(code, FINAL_NAMES[j]);
  }

  // ---------- no further charge ----------

  /** A refused attempt after which nothing is tried: its code is final, or it has used up the delays. */
  ghost predicate Hopeless(cfg: Config, t: ChargeAttempt) {
    (t.refusalCode.Some? && FinalCode(t.refusalCode.value)) || t.number >= |cfg.retryDelays|
  }

  lemma HopelessLast(cfg: Config, t: ChargeAttempt)
    ensures IsLast(cfg, t) <==> Hopeless(cfg, t)
  {
    hide IsRetryableRefusal, FinalCode;
    if t.refusalCode.Some? { FinalExactly(t.refusalCode.value); }
  }

  lemma NotPrepared(env: Environment, sys: System, step: Step, x: string)
    requires Enabled(env, sys, step) && step.PrepareStep? && x in sys.db.actions && !Claimable(sys.db.actions[x].status)
    ensures step.id != x
  {
    hide EarliestAction, Chooses;
    PickedAction(sys.db, step.now, ActionStatus.Pending, Renew, step.id);
  }

  lemma FinishedForever(s: Store, s': Store, r: string)
    requires ActionsGrow(s.actions, s'.actions) && r in s.actions && !Claimable(s.actions[r].status)
    ensures r in s'.actions && !Claimable(s'.actions[r].status)
  {
    hide ClaimsRun, ClaimGrows;
  }

  /** Once anybody has recorded a refusal with a final code, or one that used up the delays, no attempt of that renewal
      is ever added, nor the renewal taken up again. */
  lemma NothingAfterFinal(env: Environment, states: seq<System>, steps: seq<Step>, m: nat, n: nat, t: string)
    requires hide Leads; Run(env, states, steps) && m < n < |steps| && m + 1 < |states|
             && Refuses(states[m].db, states[m + 1].db, t) && Hopeless(env.cfg, states[m + 1].db.attempts[t])
    ensures var x := states[m + 1].db.attempts[t].actionId;
            && (steps[n].PrepareStep? ==> steps[n].id != x) && !TakesAction(env, states[n], steps[n], x)
            && forall a :: a in states[n + 1].db.attempts && a !in states[n].db.attempts ==>
                 states[n + 1].db.attempts[a].actionId != x
  {
    hide Run, Safe, Enabled, Next, ClaimsRun, Arrived, Hopeless, TakesAction, ActionsGrow, AttemptsGrow, OutboxGrows,
         LeasesGrow, ProcsGrow, IsLast, Asks;
    RunLength(env, states, steps);
    var x := states[m + 1].db.attempts[t].actionId;
    HopelessLast(env.cfg, states[m + 1].db.attempts[t]);
    RefusalHandled(env, states, steps, m, t);
    RunGrows(env, states, steps, m + 1, n);
    FinishedForever(states[m + 1].db, states[n].db, x);
    RunStep(env, states, steps, n);
    RunBasics(env, states, steps, n);
    if steps[n].PrepareStep? { NotPrepared(env, states[n], steps[n], x); }
    if TakesAction(env, states[n], steps[n], x) { TakenWhenFree(env, states[n], steps[n], x); }
    forall a | a in states[n + 1].db.attempts && a !in states[n].db.attempts
      ensures states[n + 1].db.attempts[a].actionId != x
    {
      assert PreparedBy(states, n, n + 1, a);
      AddedAsks(env, states, steps, n, n + 1, a);
    }
  }
}
