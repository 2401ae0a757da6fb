/**
 The choice of system in boot/loader/src/main.rs: `load_system` over any sequence of boots.  Whether a
 kernel can be read and parses, whether the recovery system does, and whether the state file can be
 written are inputs of each boot.
 */
module Loader {
  import opened Seqs
  import opened Crc
  import opened BootSlots

  datatype Outcome = Classic | FromSlot(slot: nat) | Recovery | Failed

  /** The slot that is booted: the chosen one, or the other if the chosen kernel is not valid. */
  function Pick(s: State, valid: seq<bool>): (r: Option<nat>)
    requires |valid| == 2
  {
    var c := Choose(s);
    if c.None? then None
    else if valid[c.value] then c
    else if Eligible(s, 1 - c.value) && valid[1 - c.value] then Some(1 - c.value)
    else None
  }

  /** The state written before the kernel is loaded: an attempt of an unconfirmed slot is consumed. */
  function Charged(s: State, i: nat): State
    requires i < 2 && (s.At(i).successful == 0 ==> s.At(i).tries > 0)
  {
    var x := s.At(i);
    s.With(i, if x.successful == 0 then x.(tries := x.tries - 1) else x).(lastSelected := i)
  }

  /** The slot picked is eligible and valid, the decrement cannot underflow, and no better slot qualifies. */
  lemma PickIsBest(s: State, valid: seq<bool>)
    requires |valid| == 2
    ensures var r := Pick(s, valid);
            && (r.None? <==> forall i :: 0 <= i < 2 ==> !(Eligible(s, i) && valid[i]))
            && (r.Some? ==>
                 && r.value < 2 && Eligible(s, r.value) && valid[r.value]
                 && (s.At(r.value).successful == 0 ==> s.At(r.value).tries > 0)
                 && forall i :: 0 <= i < 2 && Eligible(s, i) && valid[i] ==> s.At(i).priority <= s.At(r.value).priority)
  {
  }

  /** The file on disk after a boot: rewritten only when a slot is booted and the write succeeds. */
  function FileAfter(s: State, valid: seq<bool>, writeOk: bool): State
    requires |valid| == 2
  {
    PickIsBest(s, valid);
    var r := Pick(s, valid);
    if r.Some? && writeOk then Charged(s, r.value) else s
  }

  class Loader {
    var slotsFile: Option<seq<Byte>>

    constructor (file: Option<seq<Byte>>)
      ensures slotsFile == file
    {
      slotsFile := file;
    }

    /** What the state file says, if it can be read and is valid. */
    ghost function Saved(): Option<State>
      reads this
    {
      if slotsFile.Some? then Decode(slotsFile.value) else None
    }

    method LoadSystem(classicOk: bool, valid: seq<bool>, recoveryOk: bool, writeOk: bool) returns (r: Outcome)
      requires |valid| == 2
      modifies this
      ensures old(Saved()).None? ==> r == (if classicOk then Classic else Failed) && slotsFile == old(slotsFile)
      ensures old(Saved()).Some? ==>
                var s := old(Saved()).value;
                && Saved() == Some(FileAfter(s, valid, writeOk))
                && r == match Pick(s, valid)
                        case Some(i) => FromSlot(i)
                        case None => if recoveryOk then Recovery else Failed
    {
      hide Decode, Encoded;
      var state := if slotsFile.Some? then Decode(slotsFile.value) else None;
      if state.None? {
        return if classicOk then Classic else Failed;
      }
      var s := state.value;
      PickIsBest(s, valid);
      var chosen := Choose(s);
      if chosen.None? {
        return if recoveryOk then Recovery else Failed;
      }
      var order := [chosen.value, 1 - chosen.value];
      var k := 0;
      while k < 2
        invariant k <= 2 && slotsFile == old(slotsFile)
        invariant forall j :: 0 <= j < k ==> !(Eligible(s, order[j]) && valid[order[j]])
      {
        var slot := order[k];
        if Eligible(s, slot) && valid[slot] {
          assert Pick(s, valid) == Some(slot);
          var after := Charge(s, slot);
          if writeOk {
            var block := Encode(after);
            RoundTrip(after);
            slotsFile := Some(block[..]);
          }
          return FromSlot(slot);
        }
        k := k + 1;
      }
      assert !(Eligible(s, order[0]) && valid[order[0]]) && !(Eligible(s, order[1]) && valid[order[1]]);
      return if recoveryOk then Recovery else Failed;
    }
  }

  method Charge(s: State, slot: nat) returns (r: State)
    requires slot < 2 && Eligible(s, slot)
    ensures r == Charged(s, slot)
  {
    var x := s.At(slot);
    var pending := x.successful == 0;
    if pending {
      x := x.(tries := x.tries - 1);
    }
    r := s.With(slot, x).(lastSelected := slot);
  }

  // ---------------------------------------------------------------- sequences of boots

  /** Between boots anything may rewrite the slot that is not being watched. */
  datatype Event = Boot(valid: seq<bool>, writeOk: bool) | Rewrite(slot: Slot)

  ghost predicate Happens(watched: nat, s: State, e: Event, r: State)
    requires watched < 2
  {
    match e
    case Boot(valid, writeOk) => |valid| == 2 && r == FileAfter(s, valid, writeOk)
    case Rewrite(x) => r == s.With(1 - watched, x)
  }

  ghost predicate IsRun(watched: nat, ss: seq<State>, es: seq<Event>)
    requires watched < 2
  {
    && |ss| == |es| + 1
    && forall k {:trigger es[k]} :: 0 <= k < |es| ==> Happens(watched, ss[k], es[k], ss[k + 1])
  }

  /** Event `k` boots the watched slot. */
  predicate BootsSlot(watched: nat, s: State, e: Event) {
    e.Boot? && |e.valid| == 2 && Pick(s, e.valid) == Some(watched)
  }

  /** How many of the first `n` events boot the watched slot; only those whose write succeeds if `written`. */
  function Boots(watched: nat, ss: seq<State>, es: seq<Event>, n: nat, written: bool): nat
    requires |ss| == |es| + 1 && n <= |es|
  {
    if n == 0 then 0
    else Boots(watched, ss, es, n - 1, written) +
         if BootsSlot(watched, ss[n - 1], es[n - 1]) && (written ==> es[n - 1].writeOk) then 1 else 0
  }

  /** How many of the first `n` events are boots whose state could not be written. */
  function FailedWrites(es: seq<Event>, n: nat): nat
    requires n <= |es|
  {
    if n == 0 then 0 else FailedWrites(es, n - 1) + if es[n - 1].Boot? && !es[n - 1].writeOk then 1 else 0
  }

  /** One event takes one attempt from a pending slot exactly when it boots it and the write succeeds. */
  lemma EventCharges(watched: nat, s: State, e: Event, r: State)
    requires watched < 2 && Happens(watched, s, e, r) && s.At(watched).successful == 0
    ensures r.At(watched).successful == 0
    ensures r.At(watched).tries == s.At(watched).tries - if BootsSlot(watched, s, e) && e.writeOk then 1 else 0
  {
    if e.Boot? {
      PickIsBest(s, e.valid);
    }
  }

  /** Attempts are conserved: those left and the boots recorded add up to those there were. */
  lemma {:induction false} AttemptsConserved(watched: nat, ss: seq<State>, es: seq<Event>, n: nat)
    requires watched < 2 && IsRun(watched, ss, es) && n <= |es| && ss[0].At(watched).successful == 0
    ensures ss[n].At(watched).successful == 0
    ensures ss[n].At(watched).tries + Boots(watched, ss, es, n, true) == ss[0].At(watched).tries
  {
    if n > 0 {
      AttemptsConserved(watched, ss, es, n - 1);
      EventCharges(watched, ss[n - 1], es[n - 1], ss[n]);
    }
  }

  lemma {:induction false} BootsSplit(watched: nat, ss: seq<State>, es: seq<Event>, n: nat)
    requires |ss| == |es| + 1 && n <= |es|
    ensures Boots(watched, ss, es, n, false) <= Boots(watched, ss, es, n, true) + FailedWrites(es, n)
  {
    if n > 0 {
      BootsSplit(watched, ss, es, n - 1);
    }
  }

  /**
   A pending slot is booted at most as often as it has attempts, whatever happens to the other slot;
   each failed write allows one more.
   */
  lemma BootsBounded(watched: nat, ss: seq<State>, es: seq<Event>, n: nat)
    requires watched < 2 && IsRun(watched, ss, es) && n <= |es| && ss[0].At(watched).successful == 0
    ensures Boots(watched, ss, es, n, true) <= ss[0].At(watched).tries
    ensures Boots(watched, ss, es, n, false) <= ss[0].At(watched).tries + FailedWrites(es, n)
  {
    AttemptsConserved(watched, ss, es, n);
    BootsSplit(watched, ss, es, n);
  }

  /** Slot `i` holds `x` and the other one can not boot. */
  function Alone(i: nat, x: Slot): State
    requires i < 2
  {
    if i == 0 then State(x, Slot(0, 0, 0), i) else State(Slot(0, 0, 0), x, i)
  }

  /** A slot that is neither confirmed (1) nor pending (0) but has attempts left is booted any number of times. */
  lemma OddSlotUnbounded(i: nat, x: Slot, n: nat) returns (ss: seq<State>, es: seq<Event>)
    requires i < 2 && x.successful > 1 && x.tries > 0
    ensures |es| == n && IsRun(i, ss, es) && ss[0].At(i) == x && Boots(i, ss, es, n, true) == n
  {
    var s := Alone(i, x);
    ss, es := seq(n + 1, _ => s), seq(n, _ => Boot([true, true], true));
    assert Pick(s, [true, true]) == Some(i) && Charged(s, i) == s;
    AllBoot(i, s, ss, es, n);
  }

  lemma {:induction false} AllBoot(i: nat, s: State, ss: seq<State>, es: seq<Event>, n: nat)
    requires |ss| == |es| + 1 && n <= |es| && Pick(s, [true, true]) == Some(i)
    requires forall k :: 0 <= k < |ss| ==> ss[k] == s
    requires forall k :: 0 <= k < |es| ==> es[k] == Boot([true, true], true)
    ensures Boots(i, ss, es, n, true) == n
  {
    if n > 0 {
      AllBoot(i, s, ss, es, n - 1);
    }
  }

  /** The bound for a slot that is not confirmed holds on every run exactly when it is pending or has no attempts. */
  lemma BoundedIff(i: nat, x: Slot)
    requires i < 2 && x.successful != 1
    ensures (forall ss: seq<State>, es: seq<Event> ::
               IsRun(i, ss, es) && ss[0].At(i) == x ==> Boots(i, ss, es, |es|, true) <= x.tries)
            <==> x.successful == 0 || x.tries == 0
  {
    if x.successful == 0 {
      forall ss: seq<State>, es: seq<Event> | IsRun(i, ss, es) && ss[0].At(i) == x
        ensures Boots(i, ss, es, |es|, true) <= x.tries
      {
        BootsBounded(i, ss, es, |es|);
      }
    } else if x.tries == 0 {
      forall ss: seq<State>, es: seq<Event> | IsRun(i, ss, es) && ss[0].At(i) == x
        ensures Boots(i, ss, es, |es|, true) <= x.tries
      {
        NeverBooted(i, ss, es, |es|);
      }
    } else {
      var ss, es := OddSlotUnbounded(i, x, x.tries + 1);
    }
  }

  lemma {:induction false} NeverBooted(i: nat, ss: seq<State>, es: seq<Event>, n: nat)
    requires i < 2 && IsRun(i, ss, es) && n <= |es| && ss[0].At(i).successful != 1 && ss[0].At(i).tries == 0
    ensures ss[n].At(i) == ss[0].At(i) && Boots(i, ss, es, n, true) == 0
  {
    if n > 0 {
      NeverBooted(i, ss, es, n - 1);
      assert Happens(i, ss[n - 1], es[n - 1], ss[n]);
      if es[n - 1].Boot? {
        PickIsBest(ss[n - 1], es[n - 1].valid);
      }
    }
  }

  /** Recovery is used only when no slot that is eligible has a valid kernel; so never while a confirmed one has. */
  lemma RecoveryIsLast(s: State, valid: seq<bool>, i: nat)
    requires |valid| == 2 && i < 2 && s.At(i).successful == 1 && valid[i]
    ensures Pick(s, valid).Some?
  {
    PickIsBest(s, valid);
  }
}
