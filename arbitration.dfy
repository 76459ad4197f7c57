/**
 * Strength arbitration of a wire: which attached driver wins, when the
 * wire is in conflict, and when the result differs observably from the
 * level the wire held before.
 */
module Arbitration {
  import opened Optional
  import opened Levels

  /** The resolved state of a wire: the winning level and the conflict flag. */
  datatype Resolution = Resolution(level: Drive, conflict: bool)

  function Max(a: Strength, b: Strength): Strength
  {
    if a < b then b else a
  }

  /** The strength of the strongest drive in `ds`, Hi-Z when there is none. */
  function Strongest(ds: seq<Drive>): (s: Strength)
    ensures forall k :: 0 <= k < |ds| ==> ds[k].strength <= s
    ensures s == HI_Z || exists k :: 0 <= k < |ds| && ds[k].strength == s
  {
    if ds == [] then HI_Z else Max(ds[0].strength, Strongest(ds[1..]))
  }

  /**
   * The drive that wins: the strongest one, and of several equally strong
   * ones the one attached last (the first the backward scan meets).
   */
  function Winner(ds: seq<Drive>): (w: Drive)
    requires Strongest(ds) > HI_Z
    ensures exists k :: 0 <= k < |ds| && ds[k] == w && w.strength == Strongest(ds) &&
                        forall j :: k < j < |ds| ==> ds[j].strength < w.strength
  {
    var t := ds[1..];
    if Strongest(t) > HI_Z && Strongest(t) >= ds[0].strength then
      var w := Winner(t);
      ghost var k :| 0 <= k < |t| && t[k] == w && w.strength == Strongest(t) &&
                     forall j :: k < j < |t| ==> t[j].strength < w.strength;
      assert ds[k + 1] == w;
      assert forall j :: k + 1 < j < |ds| ==> ds[j] == t[j - 1];
      w
    else
      assert forall j :: 0 < j < |ds| ==> ds[j] == t[j - 1];
      ds[0]
  }

  /** Two drives disagree when their modes or their values differ. */
  predicate Disagree(a: Drive, b: Drive)
  {
    a.mode != b.mode || a.value != b.value
  }

  /** Some drive of the strongest (non Hi-Z) strength disagrees with the winner. */
  predicate Conflicted(ds: seq<Drive>)
  {
    Strongest(ds) > HI_Z &&
    exists k :: 0 <= k < |ds| && ds[k].strength == Strongest(ds) && Disagree(ds[k], Winner(ds))
  }

  /** The reference resolution of a wire whose attached drivers drive `ds`. */
  function Resolve(ds: seq<Drive>): (r: Resolution)
    ensures r.level.strength == Strongest(ds)
    ensures r.level.strength == HI_Z <==> forall k :: 0 <= k < |ds| ==> ds[k].strength == HI_Z
    ensures r.level.strength == HI_Z ==> r == Resolution(UNDRIVEN, false)
    ensures r.level.strength > HI_Z ==> r.level in ds
  {
    if Strongest(ds) == HI_Z then Resolution(UNDRIVEN, false)
    else Resolution(Winner(ds), Conflicted(ds))
  }

  /** How `Conflicted` evolves when the backward scan meets one more drive. */
  lemma {:induction false} ConflictedStep(s: seq<Drive>)
    requires |s| > 0
    ensures var d, t := s[0], s[1..];
            if d.strength == HI_Z || d.strength < Strongest(t) then Conflicted(s) == Conflicted(t)
            else if d.strength == Strongest(t) then Conflicted(s) == (Conflicted(t) || Disagree(d, Winner(t)))
            else !Conflicted(s)
  {
    var d, t := s[0], s[1..];
    assert forall j :: 0 < j < |s| ==> s[j] == t[j - 1];
    if d.strength == HI_Z || d.strength < Strongest(t) {
      ConflictedStepWeaker(s);
    } else if d.strength == Strongest(t) {
      ConflictedStepTie(s);
    } else {
      assert Winner(s) == d;
    }
  }

  /** A Hi-Z or weaker drive in front changes nothing about the conflict. */
  lemma ConflictedStepWeaker(s: seq<Drive>)
    requires |s| > 0 && (s[0].strength == HI_Z || s[0].strength < Strongest(s[1..]))
    requires forall j :: 0 < j < |s| ==> s[j] == s[1..][j - 1]
    ensures Conflicted(s) == Conflicted(s[1..])
  {
    var t := s[1..];
    if Conflicted(s) {
      var k :| 0 <= k < |s| && s[k].strength == Strongest(s) && Disagree(s[k], Winner(s));
      assert k != 0;
      assert t[k - 1] == s[k];
    }
    if Conflicted(t) {
      var k :| 0 <= k < |t| && t[k].strength == Strongest(t) && Disagree(t[k], Winner(t));
      assert s[k + 1] == t[k];
    }
  }

  /** A drive in front as strong as the strongest behind it adds its own disagreement. */
  lemma ConflictedStepTie(s: seq<Drive>)
    requires |s| > 0 && s[0].strength != HI_Z && s[0].strength == Strongest(s[1..])
    requires forall j :: 0 < j < |s| ==> s[j] == s[1..][j - 1]
    ensures Conflicted(s) == (Conflicted(s[1..]) || Disagree(s[0], Winner(s[1..])))
  {
    var t := s[1..];
    if Conflicted(s) {
      var k :| 0 <= k < |s| && s[k].strength == Strongest(s) && Disagree(s[k], Winner(s));
      if k > 0 {
        assert t[k - 1] == s[k];
      }
    }
    if Conflicted(t) {
      var k :| 0 <= k < |t| && t[k].strength == Strongest(t) && Disagree(t[k], Winner(t));
      assert s[k + 1] == t[k];
    }
  }

  /**
   * The backward scan of `wire_update`: walks the attached drivers from the
   * last to the first, keeping the best level so far and a conflict flag.
   */
  method Arbitrate(ds: seq<Drive>) returns (best: Drive, isConflict: bool)
    ensures Resolution(best, isConflict) == Resolve(ds)
  {
    best, isConflict := UNDRIVEN, false;
    var i := |ds|;
    while i > 0
      invariant 0 <= i <= |ds|
      invariant best.strength == Strongest(ds[i..])
      invariant best.strength == HI_Z ==> best == UNDRIVEN && !isConflict
      invariant best.strength > HI_Z ==> best == Winner(ds[i..])
      invariant isConflict == Conflicted(ds[i..])
    {
      i := i - 1;
      var d := ds[i];
      assert ds[i..][1..] == ds[i + 1..];
      ConflictedStep(ds[i..]);
      if d.strength == HI_Z || best.strength > d.strength {
        // Hi-Z and weaker drivers never take part
      } else if d.strength == best.strength {
        if !isConflict && Disagree(best, d) {
          isConflict := true;
        }
      } else {
        best := d;
        isConflict := false;
      }
    }
    assert ds[0..] == ds;
  }

  /** A drive strictly stronger than all others wins, wherever it is attached. */
  lemma StrictlyStrongerWins(ds: seq<Drive>, k: nat)
    requires k < |ds| && ds[k].strength > HI_Z
    requires forall j :: 0 <= j < |ds| && j != k ==> ds[j].strength < ds[k].strength
    ensures Resolve(ds) == Resolution(ds[k], false)
  {
    assert Strongest(ds) == ds[k].strength;
  }

  /** Conflict means: two drives at the strongest level disagree. */
  lemma ConflictIffTwoDisagree(ds: seq<Drive>)
    ensures Resolve(ds).conflict <==>
            exists i, j :: 0 <= i < |ds| && 0 <= j < |ds| &&
                           ds[i].strength == ds[j].strength == Strongest(ds) > HI_Z &&
                           Disagree(ds[i], ds[j])
  {
    if Resolve(ds).conflict {
      var w := Winner(ds);
      var i :| 0 <= i < |ds| && ds[i] == w && w.strength == Strongest(ds) &&
               forall j :: i < j < |ds| ==> ds[j].strength < w.strength;
      var j :| 0 <= j < |ds| && ds[j].strength == Strongest(ds) && Disagree(ds[j], w);
      assert Disagree(ds[i], ds[j]);
    }
  }

  /** A Hi-Z driver attached after the others changes nothing about the resolution. */
  lemma {:induction false} AppendHiZ(ds: seq<Drive>, z: Drive)
    requires z.strength == HI_Z
    ensures Strongest(ds + [z]) == Strongest(ds)
    ensures Resolve(ds + [z]) == Resolve(ds)
  {
    var s := ds + [z];
    if ds == [] {
      assert s == [z];
      assert s[1..] == [];
    } else {
      assert s[1..] == ds[1..] + [z];
      AppendHiZ(ds[1..], z);
      assert Strongest(s) == Strongest(ds);
      if Strongest(ds) > HI_Z {
        assert Winner(s) == Winner(ds) by {
          if Strongest(ds[1..]) > HI_Z && Strongest(ds[1..]) >= ds[0].strength {
            WinnerAppendHiZ(ds[1..], z);
          }
        }
        if Conflicted(s) {
          var k :| 0 <= k < |s| && s[k].strength == Strongest(s) && Disagree(s[k], Winner(s));
          assert s[|ds|] == z;
          assert k != |ds|;
          assert ds[k] == s[k];
        }
        if Conflicted(ds) {
          var k :| 0 <= k < |ds| && ds[k].strength == Strongest(ds) && Disagree(ds[k], Winner(ds));
          assert s[k] == ds[k];
        }
      }
    }
  }

  lemma {:induction false} WinnerAppendHiZ(ds: seq<Drive>, z: Drive)
    requires z.strength == HI_Z && Strongest(ds) > HI_Z
    ensures Strongest(ds + [z]) == Strongest(ds)
    ensures Winner(ds + [z]) == Winner(ds)
  {
    var s := ds + [z];
    assert s[1..] == ds[1..] + [z];
    if ds[1..] == [] {
      assert s[1..] == [z];
      assert Strongest([z]) == HI_Z by { assert [z][1..] == []; }
    } else {
      AppendHiZ(ds[1..], z);
      if Strongest(ds[1..]) > HI_Z {
        WinnerAppendHiZ(ds[1..], z);
      }
    }
  }

  /** What listeners can observe of a resolution: the conflict flag and, unless Hi-Z, mode and value. */
  function View(r: Resolution): (bool, Option<(Mode, int)>)
  {
    (r.conflict, if r.level.strength == HI_Z then None else Some((r.level.mode, r.level.value)))
  }

  /**
   * The change rule of `wire_update`: entering or leaving conflict, going to
   * or leaving Hi-Z, or, while driven, a different mode or value.
   */
  function ObservablyChanged(was: Resolution, now: Resolution): (changed: bool)
    ensures changed <==> View(was) != View(now)
  {
    now.conflict != was.conflict ||
    (now.level.strength == HI_Z && was.level.strength != HI_Z) ||
    (now.level.strength != HI_Z && was.level.strength == HI_Z) ||
    (now.level.strength != HI_Z && (now.level.mode != was.level.mode || now.level.value != was.level.value))
  }
}
