/**
 * Virtual wires and wire drivers (hw/core/wire.c).
 *
 * Wires and drivers live in one arena, `Circuit`, and are named by their
 * index; a NULL wire or driver pointer is `None`. Each wire caches the level
 * resolved from its attached drivers. Listener callbacks are not run: a
 * dispatch appends one `Called` event per listener to the ghost `log`, and
 * every `wire_update` appends an `Updated` event.
 */
module Wire {
  import opened Optional
  import opened Levels
  import opened Arbitration
  import opened LastMatch

  type WireId = nat
  type DriverId = nat

  /** The identity of a listener's handler function. */
  datatype Handler = UserHandler(id: nat) | MultiHandler

  /** The closure pointer a listener was registered with. */
  datatype Opaque = Closure(id: nat) | Token(multi: object)

  datatype Listener = Listener(handler: Handler, arg: Opaque)

  /** The fields of a `WireState`. */
  datatype WireState = WireState(
    intrinsic: int,
    attachments: seq<DriverId>,
    listeners: seq<Listener>,
    level: Drive,          // value, strength and mode set by wire_update
    isConflict: bool,
    changed: bool,         // a change listeners have not yet been told about
    inCallback: bool,
    driverChanged: bool)   // marked for re-resolution by a batch

  /** The fields of a `WireDriverState`. */
  datatype DriverState = DriverState(wires: seq<WireId>, drive: Drive, changed: bool)

  /** One element of a `qemu_wire_multi_drive` batch. */
  datatype DriveRequest = DriveRequest(driver: Option<DriverId>, drive: Drive)

  /** What the model records: a wire re-resolved, or one listener of a wire called. */
  datatype Event = Updated(wire: WireId) | Called(wire: WireId, index: nat, listener: Listener)

  /** A freshly allocated wire: default intrinsic value, undriven, nothing attached. */
  const NEW_WIRE := WireState(WIRE_INTRINSIC_DEFAULT, [], [], UNDRIVEN, false, false, false, false)

  /** A freshly allocated driver: Hi-Z, attached to nothing. */
  const NEW_DRIVER := DriverState([], UNDRIVEN, false)

  /** The level and conflict flag a wire holds. */
  function Cached(x: WireState): Resolution
  {
    Resolution(x.level, x.isConflict)
  }

  predicate AllBelow(ids: seq<nat>, n: nat)
  {
    forall k :: 0 <= k < |ids| ==> ids[k] < n
  }

  /** The drives of the drivers listed in `att`, in attachment order. */
  function DrivesOf(att: seq<DriverId>, ds: seq<DriverState>): (r: seq<Drive>)
    requires AllBelow(att, |ds|)
    ensures |r| == |att|
    ensures forall k :: 0 <= k < |att| ==> r[k] == ds[att[k]].drive
  {
    seq(|att|, k requires 0 <= k < |att| => ds[att[k]].drive)
  }

  /** The wire with its level and conflict flag re-resolved from its drivers. */
  function Resettled(x: WireState, ds: seq<DriverState>): (y: WireState)
    requires AllBelow(x.attachments, |ds|)
  {
    var r := Resolve(DrivesOf(x.attachments, ds));
    x.(level := r.level, isConflict := r.conflict)
  }

  /** The effect of `wire_update`: re-resolve, and set (never clear) `changed` by the change rule. */
  function Reresolved(x: WireState, ds: seq<DriverState>): (y: WireState)
    requires AllBelow(x.attachments, |ds|)
  {
    Resettled(x, ds).(changed := x.changed || ObservablyChanged(Cached(x), Cached(Resettled(x, ds))))
  }

  /** Ids stored in attachment and back-reference lists name existing wires and drivers. */
  ghost predicate InRange(ws: seq<WireState>, ds: seq<DriverState>)
  {
    (forall w :: 0 <= w < |ws| ==> AllBelow(ws[w].attachments, |ds|)) &&
    (forall d :: 0 <= d < |ds| ==> AllBelow(ds[d].wires, |ws|))
  }

  /** A driver is listed on a wire as often as the wire is listed on the driver. */
  ghost predicate Symmetric(ws: seq<WireState>, ds: seq<DriverState>)
  {
    forall w, d :: 0 <= w < |ws| && 0 <= d < |ds| ==>
      multiset(ws[w].attachments)[d] == multiset(ds[d].wires)[w]
  }

  /** Between public operations no change is pending and no batch mark is left. */
  ghost predicate Quiet(ws: seq<WireState>, ds: seq<DriverState>)
  {
    (forall w :: 0 <= w < |ws| ==> !ws[w].changed && !ws[w].driverChanged && !ws[w].inCallback) &&
    (forall d :: 0 <= d < |ds| ==> !ds[d].changed)
  }

  /** The wire's cached level is what its attached drivers resolve to. */
  ghost predicate CoherentAt(ws: seq<WireState>, ds: seq<DriverState>, w: WireId)
    requires InRange(ws, ds) && w < |ws|
  {
    Cached(ws[w]) == Resolve(DrivesOf(ws[w].attachments, ds))
  }

  /** Every wire's cached level is what its attached drivers resolve to. */
  ghost predicate AllCoherent(ws: seq<WireState>, ds: seq<DriverState>)
    requires InRange(ws, ds)
  {
    forall w :: 0 <= w < |ws| ==> CoherentAt(ws, ds, w)
  }

  /**
   * Coherence survives any change that keeps, on every wire but `v`, the
   * attachments and the cached level, and keeps every driver's drive; `v`
   * may also be a wire that did not exist before.
   */
  lemma CoherentOthers(ws: seq<WireState>, ds: seq<DriverState>, ws': seq<WireState>, ds': seq<DriverState>, v: int)
    requires InRange(ws, ds) && InRange(ws', ds') && AllCoherent(ws, ds)
    requires |ds'| == |ds|
    requires forall w :: 0 <= w < |ws'| && w != v ==>
               w < |ws| && ws'[w].attachments == ws[w].attachments && Cached(ws'[w]) == Cached(ws[w])
    requires forall d :: 0 <= d < |ds| ==> ds'[d].drive == ds[d].drive
    ensures forall w :: 0 <= w < |ws'| && w != v ==> CoherentAt(ws', ds', w)
  {
    forall w | 0 <= w < |ws'| && w != v ensures CoherentAt(ws', ds', w) {
      var now := ws'[w];
      assert w < |ws| && now.attachments == ws[w].attachments;
      assert CoherentAt(ws, ds, w);
      assert DrivesOf(ws'[w].attachments, ds') == DrivesOf(ws[w].attachments, ds);
    }
  }

  /** Range and symmetry depend only on the attachment and back-reference lists. */
  lemma ListsFrame(ws: seq<WireState>, ds: seq<DriverState>, ws': seq<WireState>, ds': seq<DriverState>)
    requires InRange(ws, ds) && Symmetric(ws, ds)
    requires |ws'| == |ws| && |ds'| == |ds|
    requires forall w :: 0 <= w < |ws| ==> ws'[w].attachments == ws[w].attachments
    requires forall d :: 0 <= d < |ds| ==> ds'[d].wires == ds[d].wires
    ensures InRange(ws', ds') && Symmetric(ws', ds')
  {
    forall w, d | 0 <= w < |ws'| && 0 <= d < |ds'|
      ensures multiset(ws'[w].attachments)[d] == multiset(ds'[d].wires)[w]
    {
      assert multiset(ws[w].attachments)[d] == multiset(ds[d].wires)[w];
    }
  }

  /** The listener calls of one dispatch from index `i` up: the last-registered listener first. */
  function Calls(w: WireId, ls: seq<Listener>, i: nat): seq<Event>
    decreases |ls| - i
  {
    if i >= |ls| then [] else Calls(w, ls, i + 1) + [Called(w, i, ls[i])]
  }

  /** A dispatch calls each listener once, the most recently registered first. */
  lemma {:induction false} CallsAt(w: WireId, ls: seq<Listener>, i: nat)
    requires i <= |ls|
    ensures |Calls(w, ls, i)| == |ls| - i
    ensures forall m :: 0 <= m < |ls| - i ==>
              Calls(w, ls, i)[m] == Called(w, |ls| - 1 - m, ls[|ls| - 1 - m])
    decreases |ls| - i
  {
    if i < |ls| {
      CallsAt(w, ls, i + 1);
    }
  }

  ghost predicate NoDuplicates<T>(s: seq<T>)
  {
    forall a, b :: 0 <= a < b < |s| ==> s[a] != s[b]
  }

  /** Attaching appends to both lists, which keeps them symmetric. */
  lemma SymmetricAfterAttach(ws: seq<WireState>, ds: seq<DriverState>, w: WireId, d: DriverId)
    requires Symmetric(ws, ds) && w < |ws| && d < |ds|
    ensures Symmetric(ws[w := ws[w].(attachments := ws[w].attachments + [d])],
                      ds[d := ds[d].(wires := ds[d].wires + [w])])
  {
    var ws', ds' := ws[w := ws[w].(attachments := ws[w].attachments + [d])],
                    ds[d := ds[d].(wires := ds[d].wires + [w])];
    forall v, e | 0 <= v < |ws'| && 0 <= e < |ds'|
      ensures multiset(ws'[v].attachments)[e] == multiset(ds'[e].wires)[v]
    {
      assert multiset(ws[v].attachments)[e] == multiset(ds[e].wires)[v];
    }
  }

  /** How often `y` occurs after the last `x` may have been removed. */
  lemma CountAfterRemove(s: seq<nat>, x: nat, y: nat, removed: bool)
    ensures multiset(if removed then RemoveLast(s, x) else s)[y] ==
            if removed && x == y && y in s then multiset(s)[y] - 1 else multiset(s)[y]
  {
    RemoveLastMultiset(s, x);
  }

  /** Detaching removes one entry from each list when there is one, which keeps them symmetric. */
  lemma SymmetricAfterDetach(ws: seq<WireState>, ds: seq<DriverState>, w: WireId, d: DriverId)
    requires Symmetric(ws, ds) && w < |ws| && d < |ds|
    ensures Symmetric(ws[w := ws[w].(attachments := RemoveLast(ws[w].attachments, d))],
                      ds[d := ds[d].(wires := RemoveLast(ds[d].wires, w))])
  {
    var ws', ds' := ws[w := ws[w].(attachments := RemoveLast(ws[w].attachments, d))],
                    ds[d := ds[d].(wires := RemoveLast(ds[d].wires, w))];
    forall v, e | 0 <= v < |ws'| && 0 <= e < |ds'|
      ensures multiset(ws'[v].attachments)[e] == multiset(ds'[e].wires)[v]
    {
      assert multiset(ws[v].attachments)[e] == multiset(ds[e].wires)[v];
      assert ws'[v].attachments == if v == w then RemoveLast(ws[v].attachments, d) else ws[v].attachments;
      assert ds'[e].wires == if e == d then RemoveLast(ds[e].wires, w) else ds[e].wires;
      CountAfterRemove(ws[v].attachments, d, e, v == w);
      CountAfterRemove(ds[e].wires, w, v, e == d);
    }
  }

  /** A driver is attached to a wire exactly when the wire is among the driver's wires. */
  lemma AttachedBothWays(ws: seq<WireState>, ds: seq<DriverState>, w: WireId, d: DriverId)
    requires Symmetric(ws, ds) && w < |ws| && d < |ds|
    ensures d in ws[w].attachments <==> w in ds[d].wires
  {
    assert multiset(ws[w].attachments)[d] == multiset(ds[d].wires)[w];
  }

  /** The invariant kept between public operations. */
  ghost predicate Wellformed(ws: seq<WireState>, ds: seq<DriverState>)
  {
    InRange(ws, ds) && Symmetric(ws, ds) && Quiet(ws, ds)
  }

  /** The arena after `qemu_wire_attach` has listed `d` on `w` and `w` on `d`. */
  lemma AttachKeeps(ws: seq<WireState>, ds: seq<DriverState>, w: WireId, d: DriverId)
    requires Wellformed(ws, ds) && w < |ws| && d < |ds|
    ensures Wellformed(ws[w := ws[w].(attachments := ws[w].attachments + [d])],
                       ds[d := ds[d].(wires := ds[d].wires + [w])])
  {
    SymmetricAfterAttach(ws, ds, w, d);
  }

  /** Removing an entry keeps the remaining ids in bounds. */
  lemma AllBelowRemoveLast(s: seq<nat>, x: nat, n: nat)
    requires AllBelow(s, n)
    ensures AllBelow(RemoveLast(s, x), n)
  {
    if x in s {
      var i := LastIndex(s, x);
      assert RemoveLast(s, x) == RemoveAt(s, i);
    }
  }

  /** The wire a Hi-Z driver was attached to keeps its resolution. */
  lemma AttachHiZCoherentAt(ws: seq<WireState>, ds: seq<DriverState>, w: WireId, d: DriverId)
    requires InRange(ws, ds) && w < |ws| && d < |ds| && CoherentAt(ws, ds, w)
    requires ds[d].drive.strength == HI_Z
    requires InRange(ws[w := ws[w].(attachments := ws[w].attachments + [d])],
                     ds[d := ds[d].(wires := ds[d].wires + [w])])
    ensures CoherentAt(ws[w := ws[w].(attachments := ws[w].attachments + [d])],
                       ds[d := ds[d].(wires := ds[d].wires + [w])], w)
  {
    var ws', ds' := ws[w := ws[w].(attachments := ws[w].attachments + [d])],
                    ds[d := ds[d].(wires := ds[d].wires + [w])];
    assert DrivesOf(ws'[w].attachments, ds') == DrivesOf(ws[w].attachments, ds) + [ds[d].drive];
    AppendHiZ(DrivesOf(ws[w].attachments, ds), ds[d].drive);
  }

  /** Attaching a Hi-Z driver leaves every wire coherent without re-resolving. */
  lemma AttachHiZCoherent(ws: seq<WireState>, ds: seq<DriverState>, w: WireId, d: DriverId)
    requires InRange(ws, ds) && w < |ws| && d < |ds| && AllCoherent(ws, ds)
    requires ds[d].drive.strength == HI_Z
    requires InRange(ws[w := ws[w].(attachments := ws[w].attachments + [d])],
                     ds[d := ds[d].(wires := ds[d].wires + [w])])
    ensures AllCoherent(ws[w := ws[w].(attachments := ws[w].attachments + [d])],
                        ds[d := ds[d].(wires := ds[d].wires + [w])])
  {
    var ws', ds' := ws[w := ws[w].(attachments := ws[w].attachments + [d])],
                    ds[d := ds[d].(wires := ds[d].wires + [w])];
    CoherentOthers(ws, ds, ws', ds', w);
    assert CoherentAt(ws, ds, w);
    AttachHiZCoherentAt(ws, ds, w, d);
  }

  /** The wires after the last listing of driver `d` on wire `w` is removed. */
  function UnlinkedWires(ws: seq<WireState>, w: WireId, d: DriverId): (ws': seq<WireState>)
    requires w < |ws|
    ensures |ws'| == |ws| && ws'[w].listeners == ws[w].listeners
    ensures forall u :: 0 <= u < |ws| && u != w ==> ws'[u] == ws[u]
  {
    ws[w := ws[w].(attachments := RemoveLast(ws[w].attachments, d))]
  }

  /** The drivers after the last listing of wire `w` on driver `d` is removed. */
  function UnlinkedDrivers(ds: seq<DriverState>, d: DriverId, w: WireId): (ds': seq<DriverState>)
    requires d < |ds|
    ensures |ds'| == |ds| && forall e :: 0 <= e < |ds| ==> ds'[e].drive == ds[e].drive
  {
    ds[d := ds[d].(wires := RemoveLast(ds[d].wires, w))]
  }

  /** The arena after `qemu_wire_detach` has removed the last listing each way. */
  lemma DetachKeeps(ws: seq<WireState>, ds: seq<DriverState>, w: WireId, d: DriverId)
    requires Wellformed(ws, ds) && w < |ws| && d < |ds|
    ensures Wellformed(UnlinkedWires(ws, w, d), UnlinkedDrivers(ds, d, w))
  {
    var ws', ds' := UnlinkedWires(ws, w, d), UnlinkedDrivers(ds, d, w);
    SymmetricAfterDetach(ws, ds, w, d);
    forall u | 0 <= u < |ws'|
      ensures AllBelow(ws'[u].attachments, |ds'|)
      ensures !ws'[u].changed && !ws'[u].driverChanged && !ws'[u].inCallback
    {
      if u == w {
        AllBelowRemoveLast(ws[w].attachments, d, |ds|);
      } else {
        assert ws'[u] == ws[u];
      }
    }
    forall e | 0 <= e < |ds'| ensures AllBelow(ds'[e].wires, |ws'|) && !ds'[e].changed {
      if e == d {
        AllBelowRemoveLast(ds[d].wires, w, |ws|);
      } else {
        assert ds'[e] == ds[e];
      }
    }
  }

  /**
   * The arena after `qemu_wire_detach`: unlinked both ways, then the wire
   * re-resolved; still well formed, and coherent if it was.
   */
  lemma DetachOutcome(ws: seq<WireState>, ds: seq<DriverState>, w: WireId, d: DriverId)
    requires Wellformed(ws, ds) && w < |ws| && d < |ds|
    ensures var ws1, ds' := UnlinkedWires(ws, w, d), UnlinkedDrivers(ds, d, w);
            AllBelow(ws1[w].attachments, |ds'|) && !ws1[w].changed && !ws1[w].inCallback &&
            Cached(ws1[w]) == Cached(ws[w]) && ws1[w].listeners == ws[w].listeners &&
            ws1[w := Resettled(ws1[w], ds')] == ws[w := Resettled(ws1[w], ds')] &&
            Wellformed(ws[w := Resettled(ws1[w], ds')], ds') &&
            (AllCoherent(ws, ds) ==> AllCoherent(ws[w := Resettled(ws1[w], ds')], ds'))
  {
    var ws1, ds' := UnlinkedWires(ws, w, d), UnlinkedDrivers(ds, d, w);
    DetachKeeps(ws, ds, w, d);
    ResettleKeeps(ws1, ds', w);
    UpdatedTwice(ws, w, ws1[w], Resettled(ws1[w], ds'));
    if AllCoherent(ws, ds) {
      DetachCoherent(ws, ds, w, d);
    }
  }

  /** How often driver `e` lists wire `x`. */
  ghost function Listed(ds: seq<DriverState>, e: DriverId, x: WireId): nat
    requires e < |ds|
  {
    multiset(ds[e].wires)[x]
  }

  /** How often wire `x` lists driver `e`. */
  ghost function Attached(ws: seq<WireState>, x: WireId, e: DriverId): nat
    requires x < |ws|
  {
    multiset(ws[x].attachments)[e]
  }

  /** `ds'` differs from `ds` at most in how often the drivers list wire `w`. */
  ghost predicate DriversKeptBut(ds: seq<DriverState>, ds': seq<DriverState>, w: WireId)
  {
    |ds'| == |ds| &&
    (forall e :: 0 <= e < |ds| ==> ds'[e].drive == ds[e].drive) &&
    forall e, x :: 0 <= e < |ds| && x != w ==> Listed(ds', e, x) == Listed(ds, e, x)
  }

  /** `ws'` keeps every wire's attachments, listeners and intrinsic value; only cached levels may differ. */
  ghost predicate SameLists(ws: seq<WireState>, ws': seq<WireState>)
  {
    |ws'| == |ws| &&
    forall x :: 0 <= x < |ws| ==>
      ws'[x].attachments == ws[x].attachments && ws'[x].listeners == ws[x].listeners && ws'[x].intrinsic == ws[x].intrinsic
  }

  /** `ws'` differs from `ws` at most in how often the wires list driver `d` (and their cached levels). */
  ghost predicate WiresKeptBut(ws: seq<WireState>, ws': seq<WireState>, d: DriverId)
  {
    |ws'| == |ws| &&
    (forall x :: 0 <= x < |ws| ==> ws'[x].listeners == ws[x].listeners && ws'[x].intrinsic == ws[x].intrinsic) &&
    forall x, e :: 0 <= x < |ws| && e != d ==> Attached(ws', x, e) == Attached(ws, x, e)
  }

  lemma UnlinkedDriversKept(ds: seq<DriverState>, d: DriverId, w: WireId)
    requires d < |ds|
    ensures DriversKeptBut(ds, UnlinkedDrivers(ds, d, w), w)
  {
    var ds' := UnlinkedDrivers(ds, d, w);
    forall e, x | 0 <= e < |ds| && x != w
      ensures Listed(ds', e, x) == Listed(ds, e, x)
    {
      if e == d {
        CountAfterRemove(ds[d].wires, w, x, true);
      }
    }
  }

  /** A wire whose only change in links is one listing of `d` fewer keeps everything else. */
  lemma UnlinkedWiresKept(ws: seq<WireState>, ws': seq<WireState>, w: WireId, d: DriverId)
    requires w < |ws| && |ws'| == |ws|
    requires ws'[w].attachments == RemoveLast(ws[w].attachments, d)
    requires ws'[w].listeners == ws[w].listeners && ws'[w].intrinsic == ws[w].intrinsic
    requires forall u :: 0 <= u < |ws| && u != w ==> ws'[u] == ws[u]
    ensures WiresKeptBut(ws, ws', d)
  {
    forall x, e | 0 <= x < |ws| && e != d
      ensures Attached(ws', x, e) == Attached(ws, x, e)
    {
      if x == w {
        CountAfterRemove(ws[w].attachments, d, e, true);
      }
    }
  }

  lemma DriversKeptTrans(ds0: seq<DriverState>, ds1: seq<DriverState>, ds2: seq<DriverState>, w: WireId)
    requires DriversKeptBut(ds0, ds1, w) && DriversKeptBut(ds1, ds2, w)
    ensures DriversKeptBut(ds0, ds2, w)
  {
  }

  lemma WiresKeptTrans(ws0: seq<WireState>, ws1: seq<WireState>, ws2: seq<WireState>, d: DriverId)
    requires WiresKeptBut(ws0, ws1, d) && WiresKeptBut(ws1, ws2, d)
    ensures WiresKeptBut(ws0, ws2, d)
  {
  }

  /** `ds'` is `ds` but for driver `d`, whose wires are a prefix of what they were. */
  ghost predicate Trimmed(ds: seq<DriverState>, ds': seq<DriverState>, d: DriverId)
  {
    |ds'| == |ds| && d < |ds| && ds'[d] == ds[d].(wires := ds'[d].wires) && ds'[d].wires <= ds[d].wires &&
    forall e :: 0 <= e < |ds| && e != d ==> ds'[e] == ds[e]
  }

  /** Unlinking the wire a driver lists last trims that driver's list by its last entry. */
  lemma UnlinkedLastTrimmed(ds: seq<DriverState>, d: DriverId)
    requires d < |ds| && |ds[d].wires| > 0
    ensures var ws := ds[d].wires;
            var ds' := UnlinkedDrivers(ds, d, ws[|ws| - 1]);
            Trimmed(ds, ds', d) && ds'[d].wires == ws[..|ws| - 1]
  {
    RemoveLastOfLast(ds[d].wires);
  }

  /** What one round of `wiredriver_clear` leaves, given what `qemu_wire_detach` of the last-listed wire did. */
  lemma LastWireDetached(ws0: seq<WireState>, ds0: seq<DriverState>, ws: seq<WireState>, ds: seq<DriverState>,
                         d: DriverId, x: WireId)
    requires d < |ds0| && |ds0[d].wires| > 0 && x == ds0[d].wires[|ds0[d].wires| - 1] && x < |ws0| && |ws| == |ws0|
    requires ds == UnlinkedDrivers(ds0, d, x)
    requires ws[x].attachments == RemoveLast(ws0[x].attachments, d)
    requires ws[x].listeners == ws0[x].listeners && ws[x].intrinsic == ws0[x].intrinsic
    requires forall u :: 0 <= u < |ws| && u != x ==> ws[u] == ws0[u]
    ensures Trimmed(ds0, ds, d) && ds[d].wires == ds0[d].wires[..|ds0[d].wires| - 1]
    ensures WiresKeptBut(ws0, ws, d)
  {
    UnlinkedLastTrimmed(ds0, d);
    UnlinkedWiresKept(ws0, ws, x, d);
  }

  lemma TrimmedTrans(ds0: seq<DriverState>, ds1: seq<DriverState>, ds2: seq<DriverState>, d: DriverId)
    requires Trimmed(ds0, ds1, d) && Trimmed(ds1, ds2, d)
    ensures Trimmed(ds0, ds2, d)
  {
    assert ds2[d].wires == ds1[d].wires[..|ds2[d].wires|];
    assert ds1[d].wires == ds0[d].wires[..|ds1[d].wires|];
  }

  /** A driver that lists no wire is attached to none. */
  lemma DriverUnlinked(ws: seq<WireState>, ds: seq<DriverState>, d: DriverId)
    requires Wellformed(ws, ds) && d < |ds| && ds[d].wires == []
    ensures forall x :: 0 <= x < |ws| ==> d !in ws[x].attachments
  {
    forall x | 0 <= x < |ws| ensures d !in ws[x].attachments {
      assert multiset(ws[x].attachments)[d] == multiset(ds[d].wires)[x];
    }
  }

  /** A wire with no attachment is listed by no driver. */
  lemma WireUnlinked(ws: seq<WireState>, ds: seq<DriverState>, w: WireId)
    requires Wellformed(ws, ds) && w < |ws| && ws[w].attachments == []
    ensures forall e :: 0 <= e < |ds| ==> w !in ds[e].wires
  {
    forall e | 0 <= e < |ds| ensures w !in ds[e].wires {
      assert multiset(ws[w].attachments)[e] == multiset(ds[e].wires)[w];
    }
  }

  /** The log grew by events about wires in `xs` only. */
  ghost predicate GrewAbout(log0: seq<Event>, log: seq<Event>, xs: set<WireId>)
  {
    |log0| <= |log| && log[..|log0|] == log0 &&
    forall k :: |log0| <= k < |log| ==> log[k].wire in xs
  }

  lemma GrewTrans(log0: seq<Event>, log1: seq<Event>, log2: seq<Event>, xs: set<WireId>)
    requires GrewAbout(log0, log1, xs) && GrewAbout(log1, log2, xs)
    ensures GrewAbout(log0, log2, xs)
  {
    assert log2[..|log0|] == log1[..|log1|][..|log0|];
    forall k | |log0| <= k < |log2| ensures log2[k].wire in xs {
      if k < |log1| {
        assert log2[k] == log2[..|log1|][k];
      }
    }
  }

  /** After the detach the arena is coherent again once the wire is re-resolved. */
  lemma DetachCoherent(ws: seq<WireState>, ds: seq<DriverState>, w: WireId, d: DriverId)
    requires Wellformed(ws, ds) && w < |ws| && d < |ds| && AllCoherent(ws, ds)
    ensures var ws1, ds' := UnlinkedWires(ws, w, d), UnlinkedDrivers(ds, d, w);
            InRange(ws1, ds') && AllCoherent(ws1[w := Resettled(ws1[w], ds')], ds')
  {
    DetachKeeps(ws, ds, w, d);
    var ws1, ds' := UnlinkedWires(ws, w, d), UnlinkedDrivers(ds, d, w);
    var ws' := ws1[w := Resettled(ws1[w], ds')];
    forall u | 0 <= u < |ws'| ensures ws'[u].attachments == ws1[u].attachments && (u != w ==> ws'[u] == ws[u]) {
    }
    ListsFrame(ws1, ds', ws', ds');
    CoherentOthers(ws, ds, ws', ds', w);
    assert CoherentAt(ws', ds', w);
  }

  /** Re-resolving one wire keeps the invariant. */
  lemma ResettleKeeps(ws: seq<WireState>, ds: seq<DriverState>, w: WireId)
    requires Wellformed(ws, ds) && w < |ws|
    ensures Wellformed(ws[w := Resettled(ws[w], ds)], ds)
  {
    var ws' := ws[w := Resettled(ws[w], ds)];
    forall u | 0 <= u < |ws|
      ensures ws'[u].attachments == ws[u].attachments
      ensures !ws'[u].changed && !ws'[u].driverChanged && !ws'[u].inCallback
    {
      if u != w {
        assert ws'[u] == ws[u];
      }
    }
    ListsFrame(ws, ds, ws', ds);
  }

  /*
   * qemu_wire_multi_drive
   */

  /** Every driver a batch names exists. */
  predicate BatchInRange(batch: seq<DriveRequest>, n: nat)
  {
    forall j :: 0 <= j < |batch| && batch[j].driver.Some? ==> batch[j].driver.value < n
  }

  /**
   * Phase one for one request: a driver given a drive different from the one
   * it has takes it and is flagged changed; a NULL driver or an unchanged
   * drive is skipped.
   */
  function ApplyRequest(ds: seq<DriverState>, r: DriveRequest): (ds': seq<DriverState>)
    requires r.driver.Some? ==> r.driver.value < |ds|
    ensures |ds'| == |ds|
    ensures forall e :: 0 <= e < |ds| ==> ds'[e].wires == ds[e].wires
  {
    if r.driver.None? || ds[r.driver.value].drive == r.drive then ds
    else ds[r.driver.value := ds[r.driver.value].(drive := r.drive, changed := true)]
  }

  /** Phase one for a whole batch, request by request. */
  function ApplyBatch(ds: seq<DriverState>, batch: seq<DriveRequest>): (ds': seq<DriverState>)
    requires BatchInRange(batch, |ds|)
    ensures |ds'| == |ds|
    ensures forall e :: 0 <= e < |ds| ==> ds'[e].wires == ds[e].wires
    decreases |batch|
  {
    if batch == [] then ds
    else ApplyRequest(ApplyBatch(ds, batch[..|batch| - 1]), batch[|batch| - 1])
  }

  /** Whether some request of the batch names driver `e`. */
  predicate Named(batch: seq<DriveRequest>, e: DriverId)
  {
    exists j :: 0 <= j < |batch| && batch[j].driver == Some(e)
  }

  /**
   * A driver whose flag the batch leaves clear is untouched, and a driver the
   * batch flags is one it names.
   */
  lemma {:induction false} ApplyBatchFlags(ds: seq<DriverState>, batch: seq<DriveRequest>, e: DriverId)
    requires BatchInRange(batch, |ds|) && e < |ds|
    ensures !ApplyBatch(ds, batch)[e].changed ==> ApplyBatch(ds, batch)[e] == ds[e]
    ensures ApplyBatch(ds, batch)[e].changed && !ds[e].changed ==> Named(batch, e)
    decreases |batch|
  {
    if batch != [] {
      var init := batch[..|batch| - 1];
      ApplyBatchFlags(ds, init, e);
      if ApplyBatch(ds, batch)[e].changed && !ds[e].changed && !Named(init, e) {
        assert batch[|batch| - 1].driver == Some(e);
      }
      if Named(init, e) {
        var j :| 0 <= j < |init| && init[j].driver == Some(e);
        assert batch[j] == init[j];
      }
    }
  }

  /** The drive a driver ends up with is the one the last request naming it asked for. */
  lemma {:induction false} LastRequestWins(ds: seq<DriverState>, batch: seq<DriveRequest>, j: nat)
    requires BatchInRange(batch, |ds|) && j < |batch| && batch[j].driver.Some?
    requires forall k :: j < k < |batch| ==> batch[k].driver != batch[j].driver
    ensures ApplyBatch(ds, batch)[batch[j].driver.value].drive == batch[j].drive
    decreases |batch|
  {
    if j < |batch| - 1 {
      var init := batch[..|batch| - 1];
      assert init[j] == batch[j];
      LastRequestWins(ds, init, j);
    }
  }

  /** A driver no request names keeps its record. */
  lemma {:induction false} UnnamedUntouched(ds: seq<DriverState>, batch: seq<DriveRequest>, e: DriverId)
    requires BatchInRange(batch, |ds|) && e < |ds| && !Named(batch, e)
    ensures ApplyBatch(ds, batch)[e] == ds[e]
    decreases |batch|
  {
    if batch != [] {
      var init := batch[..|batch| - 1];
      forall j | 0 <= j < |init| ensures init[j].driver != Some(e) {
        assert init[j] == batch[j];
      }
      UnnamedUntouched(ds, init, e);
    }
  }

  /** A driver that every request naming it asks for the drive it already has keeps its record: each such entry is skipped. */
  lemma {:induction false} RepeatsSkipped(ds: seq<DriverState>, batch: seq<DriveRequest>, e: DriverId)
    requires BatchInRange(batch, |ds|) && e < |ds|
    requires forall j :: 0 <= j < |batch| && batch[j].driver == Some(e) ==> batch[j].drive == ds[e].drive
    ensures ApplyBatch(ds, batch)[e] == ds[e]
    decreases |batch|
  {
    if batch != [] {
      var init := batch[..|batch| - 1];
      forall j | 0 <= j < |init| && init[j].driver == Some(e)
        ensures init[j].drive == ds[e].drive
      {
        assert init[j] == batch[j];
      }
      RepeatsSkipped(ds, init, e);
    }
  }

  /** Wire `x` is on the wire list of some driver flagged changed. */
  ghost predicate Marked(ds: seq<DriverState>, x: WireId)
  {
    exists e :: 0 <= e < |ds| && ds[e].changed && x in ds[e].wires
  }

  /** Flagging driver `d` marks exactly the wires on its list in addition. */
  lemma MarkedAfterFlag(ds: seq<DriverState>, d: DriverId, v: Drive, x: WireId)
    requires d < |ds|
    ensures Marked(ds[d := ds[d].(drive := v, changed := true)], x) <==> Marked(ds, x) || x in ds[d].wires
  {
    var ds' := ds[d := ds[d].(drive := v, changed := true)];
    if Marked(ds', x) {
      var e :| 0 <= e < |ds'| && ds'[e].changed && x in ds'[e].wires;
      if e != d {
        assert ds[e] == ds'[e];
      }
    }
    if Marked(ds, x) {
      var e :| 0 <= e < |ds| && ds[e].changed && x in ds[e].wires;
      if e != d {
        assert ds[e] == ds'[e];
      }
    }
    if x in ds[d].wires {
      assert ds'[d].changed && x in ds'[d].wires;
    }
  }

  /** The wires when phase two is over: marked wires re-resolved, with any change pending. */
  ghost function Resolved(ws0: seq<WireState>, ds: seq<DriverState>): (ws: seq<WireState>)
    requires InRange(ws0, ds)
    ensures |ws| == |ws0|
  {
    seq(|ws0|, x requires 0 <= x < |ws0| => if Marked(ds, x) then Reresolved(ws0[x], ds) else ws0[x])
  }

  /** The wires after the whole batch: marked wires re-resolved, nothing pending. */
  ghost function Settled(ws0: seq<WireState>, ds: seq<DriverState>): (ws: seq<WireState>)
    requires InRange(ws0, ds)
    ensures |ws| == |ws0|
  {
    seq(|ws0|, x requires 0 <= x < |ws0| => if Marked(ds, x) then Resettled(ws0[x], ds) else ws0[x])
  }

  /** The drivers after the whole batch: new drives, no flag left. */
  function Unflagged(ds: seq<DriverState>): (ds': seq<DriverState>)
    ensures |ds'| == |ds|
  {
    seq(|ds|, e requires 0 <= e < |ds| => ds[e].(changed := false))
  }

  /** No change pending and no batch mark on any wire. */
  ghost predicate WiresQuiet(ws: seq<WireState>)
  {
    forall x :: 0 <= x < |ws| ==> !ws[x].changed && !ws[x].driverChanged && !ws[x].inCallback
  }

  /**
   * Phase two part way through: each wire is either still marked and as
   * before, or re-resolved if marked; `seg`, the events so far, holds one
   * `Updated` per wire re-resolved.
   */
  ghost predicate ResolveProgress(ws0: seq<WireState>, ds: seq<DriverState>, ws: seq<WireState>, seg: seq<Event>)
    requires InRange(ws0, ds)
  {
    ResolvingStates(ws0, ds, ws) && ResolvingLog(ds, ws, seg)
  }

  ghost predicate ResolvingStates(ws0: seq<WireState>, ds: seq<DriverState>, ws: seq<WireState>)
    requires InRange(ws0, ds)
  {
    |ws| == |ws0| &&
    (forall x :: 0 <= x < |ws| ==>
       ws[x] == if ws[x].driverChanged then ws0[x].(driverChanged := true)
                else if Marked(ds, x) then Reresolved(ws0[x], ds) else ws0[x]) &&
    (forall x :: 0 <= x < |ws| && ws[x].driverChanged ==> Marked(ds, x))
  }

  ghost predicate ResolvingLog(ds: seq<DriverState>, ws: seq<WireState>, seg: seq<Event>)
  {
    (forall k :: 0 <= k < |seg| ==> seg[k].Updated? && seg[k].wire < |ws|) &&
    NoDuplicates(seg) &&
    (forall x :: 0 <= x < |ws| ==> (Updated(x) in seg <==> Marked(ds, x) && !ws[x].driverChanged))
  }

  /** Re-resolving a still-marked wire and logging it keeps phase two's progress. */
  lemma ResolveStep(ws0: seq<WireState>, ds: seq<DriverState>, ws: seq<WireState>, seg: seq<Event>, x: WireId)
    requires InRange(ws0, ds) && WiresQuiet(ws0) && ResolveProgress(ws0, ds, ws, seg)
    requires x < |ws| && ws[x].driverChanged
    ensures ResolveProgress(ws0, ds, ws[x := Reresolved(ws[x], ds).(driverChanged := false)], seg + [Updated(x)])
  {
    assert ws[x].attachments == ws0[x].attachments;
    ResolveStepStates(ws0, ds, ws, x);
    ResolveStepLog(ds, ws, seg, x);
  }

  lemma ResolveStepStates(ws0: seq<WireState>, ds: seq<DriverState>, ws: seq<WireState>, x: WireId)
    requires InRange(ws0, ds) && WiresQuiet(ws0) && ResolvingStates(ws0, ds, ws)
    requires x < |ws| && ws[x].driverChanged
    ensures ResolvingStates(ws0, ds, ws[x := Reresolved(ws[x], ds).(driverChanged := false)])
  {
    var ws' := ws[x := Reresolved(ws[x], ds).(driverChanged := false)];
    assert ws'[x] == Reresolved(ws0[x], ds);
    forall y | 0 <= y < |ws'|
      ensures ws'[y] == if ws'[y].driverChanged then ws0[y].(driverChanged := true)
                        else if Marked(ds, y) then Reresolved(ws0[y], ds) else ws0[y]
      ensures ws'[y].driverChanged ==> Marked(ds, y)
    {
      if y != x {
        assert ws'[y] == ws[y];
      }
    }
  }

  lemma ResolveStepLog(ds: seq<DriverState>, ws: seq<WireState>, seg: seq<Event>, x: WireId)
    requires ResolvingLog(ds, ws, seg) && x < |ws| && ws[x].driverChanged && AllBelow(ws[x].attachments, |ds|)
    requires forall y :: 0 <= y < |ws| && ws[y].driverChanged ==> Marked(ds, y)
    ensures ResolvingLog(ds, ws[x := Reresolved(ws[x], ds).(driverChanged := false)], seg + [Updated(x)])
  {
    var ws' := ws[x := Reresolved(ws[x], ds).(driverChanged := false)];
    var seg' := seg + [Updated(x)];
    forall k | 0 <= k < |seg'| ensures seg'[k].Updated? && seg'[k].wire < |ws'| {
      if k < |seg| {
        assert seg'[k] == seg[k];
      }
    }
    forall a, b | 0 <= a < b < |seg'| ensures seg'[a] != seg'[b] {
      if b == |seg| {
        assert seg'[a] == seg[a];
      }
    }
    forall y | 0 <= y < |ws'| ensures Updated(y) in seg' <==> Marked(ds, y) && !ws'[y].driverChanged {
      assert Updated(y) in seg' <==> Updated(y) in seg || y == x;
    }
  }

  /** Event `e` is a call of listener `i` of wire `x`, as registered in `ws2`. */
  ghost predicate CallOf(ws2: seq<WireState>, e: Event)
  {
    e.Called? && e.wire < |ws2| && e.index < |ws2[e.wire].listeners| &&
    e.listener == ws2[e.wire].listeners[e.index]
  }

  /**
   * Phase three part way through: some wires have had their pending change
   * cleared and dispatched; `seg`, the events so far, holds every call of
   * their listeners, once each, and nothing else.
   */
  ghost predicate NotifyProgress(ws2: seq<WireState>, ws: seq<WireState>, seg: seq<Event>)
  {
    |ws| == |ws2| &&
    (forall x :: 0 <= x < |ws| ==> ws[x] == ws2[x].(changed := ws[x].changed) && (ws[x].changed ==> ws2[x].changed)) &&
    (forall k :: 0 <= k < |seg| ==> CallOf(ws2, seg[k]) && ws2[seg[k].wire].changed && !ws[seg[k].wire].changed) &&
    NoDuplicates(seg) &&
    (forall x, i :: 0 <= x < |ws| && ws2[x].changed && !ws[x].changed && 0 <= i < |ws2[x].listeners| ==>
       Called(x, i, ws2[x].listeners[i]) in seg)
  }

  /** The calls of one dispatch: each listener of the wire once, under its index. */
  lemma CallsExactly(w: WireId, ls: seq<Listener>)
    ensures forall k :: 0 <= k < |Calls(w, ls, 0)| ==>
              Calls(w, ls, 0)[k].Called? && Calls(w, ls, 0)[k].wire == w &&
              Calls(w, ls, 0)[k].index < |ls| && Calls(w, ls, 0)[k].listener == ls[Calls(w, ls, 0)[k].index]
    ensures NoDuplicates(Calls(w, ls, 0))
    ensures forall i :: 0 <= i < |ls| ==> Called(w, i, ls[i]) in Calls(w, ls, 0)
  {
    var c := Calls(w, ls, 0);
    CallsAt(w, ls, 0);
    forall i | 0 <= i < |ls| ensures Called(w, i, ls[i]) in c {
      assert c[|ls| - 1 - i] == Called(w, i, ls[i]);
    }
  }

  /** Dispatching a wire with a change pending keeps phase three's progress. */
  lemma NotifyStep(ws2: seq<WireState>, ws: seq<WireState>, seg: seq<Event>, x: WireId)
    requires NotifyProgress(ws2, ws, seg) && x < |ws| && ws[x].changed && !ws2[x].inCallback
    ensures NotifyProgress(ws2, ws[x := ws[x].(changed := false, inCallback := false)], seg + Calls(x, ws[x].listeners, 0))
  {
    var ws' := ws[x := ws[x].(changed := false, inCallback := false)];
    var c := Calls(x, ws[x].listeners, 0);
    var seg' := seg + c;
    CallsExactly(x, ws[x].listeners);
    assert ws[x].listeners == ws2[x].listeners;
    forall a, b | 0 <= a < b < |seg'| ensures seg'[a] != seg'[b] {
      if a < |seg| && b >= |seg| {
        assert seg'[b] == c[b - |seg|];
        assert seg'[a] == seg[a];
      } else if a >= |seg| {
        assert seg'[a] == c[a - |seg|] && seg'[b] == c[b - |seg|];
      }
    }
    forall k | 0 <= k < |seg'|
      ensures CallOf(ws2, seg'[k]) && ws2[seg'[k].wire].changed && !ws'[seg'[k].wire].changed
    {
      if k >= |seg| {
        assert seg'[k] == c[k - |seg|];
      }
    }
    forall y, i | 0 <= y < |ws'| && ws2[y].changed && !ws'[y].changed && 0 <= i < |ws2[y].listeners|
      ensures Called(y, i, ws2[y].listeners[i]) in seg'
    {
      if y == x {
        assert Called(y, i, ws2[y].listeners[i]) in c;
      } else {
        assert Called(y, i, ws2[y].listeners[i]) in seg;
      }
    }
  }

  /**
   * The events of one `qemu_wire_multi_drive`, given the wires before (`ws0`),
   * the drivers after phase one (`ds1`) and the wires after (`ws`): each
   * marked wire is re-resolved once; afterwards each listener of each marked
   * wire whose view changed is called once, and nothing else.
   */
  ghost predicate BatchEvents(ws0: seq<WireState>, ds1: seq<DriverState>, ws: seq<WireState>, seg: seq<Event>)
    requires |ws| == |ws0|
  {
    NoDuplicates(seg) &&
    (forall a, b :: 0 <= a < b < |seg| ==> !(seg[a].Called? && seg[b].Updated?)) &&
    (forall k :: 0 <= k < |seg| && seg[k].Updated? ==> seg[k].wire < |ws0| && Marked(ds1, seg[k].wire)) &&
    (forall x :: 0 <= x < |ws0| && Marked(ds1, x) ==> Updated(x) in seg) &&
    (forall k :: 0 <= k < |seg| && seg[k].Called? ==>
       CallOf(ws, seg[k]) && Marked(ds1, seg[k].wire) &&
       ObservablyChanged(Cached(ws0[seg[k].wire]), Cached(ws[seg[k].wire]))) &&
    (forall x, i ::
       0 <= x < |ws0| && Marked(ds1, x) && ObservablyChanged(Cached(ws0[x]), Cached(ws[x])) && 0 <= i < |ws[x].listeners|
       ==> Called(x, i, ws[x].listeners[i]) in seg)
  }

  /** Phase two's `Updated` events followed by phase three's calls are the events of the batch. */
  lemma BatchEventsCompose(ws0: seq<WireState>, ds1: seq<DriverState>, updates: seq<Event>, calls: seq<Event>)
    requires InRange(ws0, ds1) && WiresQuiet(ws0)
    requires ResolveProgress(ws0, ds1, Resolved(ws0, ds1), updates)
    requires NotifyProgress(Resolved(ws0, ds1), Settled(ws0, ds1), calls)
    ensures BatchEvents(ws0, ds1, Settled(ws0, ds1), updates + calls)
  {
    var ws2, ws := Resolved(ws0, ds1), Settled(ws0, ds1);
    var seg := updates + calls;
    forall x | 0 <= x < |ws0|
      ensures ws[x].listeners == ws0[x].listeners
      ensures ws2[x].changed == (Marked(ds1, x) && ObservablyChanged(Cached(ws0[x]), Cached(ws[x])))
    {
    }
    forall a, b | 0 <= a < b < |seg| ensures seg[a] != seg[b] && !(seg[a].Called? && seg[b].Updated?) {
      if b < |updates| {
        assert seg[a] == updates[a] && seg[b] == updates[b];
      } else if a >= |updates| {
        assert seg[a] == calls[a - |updates|] && seg[b] == calls[b - |updates|];
      } else {
        assert seg[a] == updates[a] && seg[b] == calls[b - |updates|];
      }
    }
    forall k | 0 <= k < |seg|
      ensures seg[k].Updated? ==> seg[k].wire < |ws0| && Marked(ds1, seg[k].wire)
      ensures seg[k].Called? ==> CallOf(ws, seg[k]) && Marked(ds1, seg[k].wire) &&
                                 ObservablyChanged(Cached(ws0[seg[k].wire]), Cached(ws[seg[k].wire]))
    {
      if k < |updates| {
        assert seg[k] == updates[k];
        assert Updated(seg[k].wire) in updates;
      } else {
        assert seg[k] == calls[k - |updates|];
      }
    }
    forall x | 0 <= x < |ws0| && Marked(ds1, x) ensures Updated(x) in seg {
      assert Updated(x) in updates;
    }
    forall x, i | 0 <= x < |ws0| && Marked(ds1, x) && ObservablyChanged(Cached(ws0[x]), Cached(ws[x])) &&
                  0 <= i < |ws[x].listeners|
      ensures Called(x, i, ws[x].listeners[i]) in seg
    {
      assert Called(x, i, ws2[x].listeners[i]) in calls;
    }
  }

  /** The drives of a wire's drivers when none of them is flagged. */
  lemma UnmarkedDrives(ws0: seq<WireState>, ds0: seq<DriverState>, batch: seq<DriveRequest>, x: WireId)
    requires Wellformed(ws0, ds0) && BatchInRange(batch, |ds0|) && x < |ws0|
    requires !Marked(ApplyBatch(ds0, batch), x)
    ensures DrivesOf(ws0[x].attachments, Unflagged(ApplyBatch(ds0, batch))) == DrivesOf(ws0[x].attachments, ds0)
  {
    var ds1 := ApplyBatch(ds0, batch);
    var att := ws0[x].attachments;
    forall k | 0 <= k < |att| ensures Unflagged(ds1)[att[k]].drive == ds0[att[k]].drive {
      var e := att[k];
      AttachedBothWays(ws0, ds0, x, e);
      assert x in ds1[e].wires;
      ApplyBatchFlags(ds0, batch, e);
    }
  }

  /** `qemu_wire_multi_drive` keeps the invariant, and keeps every wire coherent. */
  lemma BatchKeeps(ws0: seq<WireState>, ds0: seq<DriverState>, batch: seq<DriveRequest>)
    requires Wellformed(ws0, ds0) && BatchInRange(batch, |ds0|)
    ensures Wellformed(Settled(ws0, ApplyBatch(ds0, batch)), Unflagged(ApplyBatch(ds0, batch)))
    ensures AllCoherent(ws0, ds0) ==>
              AllCoherent(Settled(ws0, ApplyBatch(ds0, batch)), Unflagged(ApplyBatch(ds0, batch)))
  {
    var ds1 := ApplyBatch(ds0, batch);
    var ws, ds := Settled(ws0, ds1), Unflagged(ds1);
    ListsFrame(ws0, ds0, ws, ds);
    if AllCoherent(ws0, ds0) {
      forall x | 0 <= x < |ws| ensures CoherentAt(ws, ds, x) {
        if Marked(ds1, x) {
          assert DrivesOf(ws0[x].attachments, ds) == DrivesOf(ws0[x].attachments, ds1);
        } else {
          UnmarkedDrives(ws0, ds0, batch, x);
          assert CoherentAt(ws0, ds0, x);
        }
      }
    }
  }

  /** Replacing an element just appended is appending the replacement. */
  lemma ReplaceAppended<T>(s: seq<T>, x: T, y: T)
    ensures (s + [x])[|s| := y] == s + [y]
  {
  }

  /** What `qemu_wire_detach` leaves on the wire it detached from, and on every other wire. */
  lemma DetachedWire(ws: seq<WireState>, ds: seq<DriverState>, x: WireId, d: DriverId)
    requires x < |ws| && AllBelow(RemoveLast(ws[x].attachments, d), |ds|)
    ensures var ws' := ws[x := Resettled(UnlinkedWires(ws, x, d)[x], ds)];
            |ws'| == |ws| && ws'[x].attachments == RemoveLast(ws[x].attachments, d) &&
            ws'[x].listeners == ws[x].listeners && ws'[x].intrinsic == ws[x].intrinsic &&
            Cached(ws'[x]) == Resolve(DrivesOf(ws'[x].attachments, ds)) &&
            forall u :: 0 <= u < |ws| && u != x ==> ws'[u] == ws[u]
  {
  }

  /** The events `qemu_wire_detach` logs are all about the wire detached from. */
  lemma DetachEventsAbout(log0: seq<Event>, x: WireId, ls: seq<Listener>, changed: bool)
    ensures GrewAbout(log0, log0 + [Updated(x)] + (if changed then Calls(x, ls, 0) else []), {x})
  {
    CallsExactly(x, ls);
    var calls := if changed then Calls(x, ls, 0) else [];
    var log := log0 + [Updated(x)] + calls;
    forall k | |log0| <= k < |log| ensures log[k].wire == x {
      if k > |log0| {
        assert log[k] == calls[k - |log0| - 1];
      }
    }
  }

  /** A suffix is the middle part followed by the rest. */
  lemma AppendedSlices<T>(s: seq<T>, x: T, a: nat)
    requires a <= |s|
    ensures (s + [x])[a..] == s[a..] + [x] && (s + [x])[..|s|] == s
  {
  }

  lemma UpdatedTwice<T>(s: seq<T>, i: nat, a: T, b: T)
    requires i < |s|
    ensures s[i := a][i := b] == s[i := b]
  {
  }

  lemma SplitAt<T>(s: seq<T>, a: nat, b: nat)
    requires a <= b <= |s|
    ensures s[a..] == s[a..b] + s[b..]
  {
  }

  /** Phase three only clears the pending changes phase two left. */
  lemma SettledAfterNotify(ws0: seq<WireState>, ds1: seq<DriverState>, ws: seq<WireState>)
    requires InRange(ws0, ds1) && WiresQuiet(ws0) && |ws| == |ws0|
    requires forall x :: 0 <= x < |ws| ==> ws[x] == Resolved(ws0, ds1)[x].(changed := false)
    ensures ws == Settled(ws0, ds1)
  {
    forall x | 0 <= x < |ws| ensures ws[x] == Settled(ws0, ds1)[x] {
    }
  }

  /** Before a batch no driver is flagged, so afterwards only drivers the batch names are. */
  lemma FlaggedAreNamed(ds0: seq<DriverState>, batch: seq<DriveRequest>)
    requires BatchInRange(batch, |ds0|) && forall e :: 0 <= e < |ds0| ==> !ds0[e].changed
    ensures forall e :: 0 <= e < |ds0| && ApplyBatch(ds0, batch)[e].changed ==> Named(batch, e)
  {
    forall e | 0 <= e < |ds0| && ApplyBatch(ds0, batch)[e].changed ensures Named(batch, e) {
      ApplyBatchFlags(ds0, batch, e);
    }
  }

  /** A batch of one request. */
  lemma SingleRequest(ws0: seq<WireState>, ds0: seq<DriverState>, r: DriveRequest)
    requires Wellformed(ws0, ds0) && (r.driver.Some? ==> r.driver.value < |ds0|)
    ensures BatchInRange([r], |ds0|)
    ensures ApplyBatch(ds0, [r]) == ApplyRequest(ds0, r)
    ensures forall x :: Marked(ApplyRequest(ds0, r), x) <==>
              r.driver.Some? && ds0[r.driver.value].drive != r.drive && x in ds0[r.driver.value].wires
    ensures r.driver.None? || ds0[r.driver.value].drive == r.drive ==>
              Unflagged(ApplyRequest(ds0, r)) == ds0 && Settled(ws0, ApplyRequest(ds0, r)) == ws0
    ensures r.driver.Some? && ds0[r.driver.value].drive != r.drive ==>
              Unflagged(ApplyRequest(ds0, r)) == ds0[r.driver.value := ds0[r.driver.value].(drive := r.drive)]
  {
    assert [r][..0] == [];
    var ds1 := ApplyRequest(ds0, r);
    forall x ensures Marked(ds1, x) <==>
      r.driver.Some? && ds0[r.driver.value].drive != r.drive && x in ds0[r.driver.value].wires
    {
      if r.driver.Some? && ds0[r.driver.value].drive != r.drive {
        MarkedAfterFlag(ds0, r.driver.value, r.drive, x);
      }
    }
    if r.driver.None? || ds0[r.driver.value].drive == r.drive {
      assert Unflagged(ds1) == ds0;
      assert Settled(ws0, ds1) == ws0;
    } else {
      assert Unflagged(ds1) == ds0[r.driver.value := ds0[r.driver.value].(drive := r.drive)];
    }
  }

  /** A log whose prefix is `s0` and whose rest is empty is `s0`. */
  lemma NothingAppended<T>(s0: seq<T>, s: seq<T>)
    requires |s0| <= |s| && s[..|s0|] == s0 && s[|s0|..] == []
    ensures s == s0
  {
    assert s == s[..|s0|] + s[|s0|..];
  }

  /** A request that names no driver, or repeats its drive, leaves the arena as it was. */
  lemma {:induction false} SingleNoChange(ws0: seq<WireState>, ds0: seq<DriverState>, r: DriveRequest, seg: seq<Event>)
    requires Wellformed(ws0, ds0) && (r.driver.Some? ==> r.driver.value < |ds0|)
    requires r.driver.None? || ds0[r.driver.value].drive == r.drive
    requires BatchEvents(ws0, ApplyRequest(ds0, r), Settled(ws0, ApplyRequest(ds0, r)), seg)
    ensures Settled(ws0, ApplyRequest(ds0, r)) == ws0 && Unflagged(ApplyRequest(ds0, r)) == ds0
    ensures seg == []
  {
    SingleRequest(ws0, ds0, r);
    NoEventsUnmarked(ws0, ApplyRequest(ds0, r), Settled(ws0, ApplyRequest(ds0, r)), seg);
  }

  /** A request that changes a driver's drive re-resolves exactly the wires that driver lists. */
  lemma {:induction false} SingleChange(ws0: seq<WireState>, ds0: seq<DriverState>, r: DriveRequest)
    requires Wellformed(ws0, ds0) && r.driver.Some? && r.driver.value < |ds0|
    requires ds0[r.driver.value].drive != r.drive
    ensures var ds := ds0[r.driver.value := ds0[r.driver.value].(drive := r.drive)];
            var ws := Settled(ws0, ApplyRequest(ds0, r));
            Unflagged(ApplyRequest(ds0, r)) == ds && |ws| == |ws0| && InRange(ws0, ds) &&
            forall x :: 0 <= x < |ws| ==>
              ws[x] == if x in ds[r.driver.value].wires then Resettled(ws0[x], ds) else ws0[x]
  {
    SingleRequest(ws0, ds0, r);
    var ds1 := ApplyRequest(ds0, r);
    var ds := ds0[r.driver.value := ds0[r.driver.value].(drive := r.drive)];
    var ws := Settled(ws0, ds1);
    assert InRange(ws0, ds);
    forall x | 0 <= x < |ws|
      ensures ws[x] == if x in ds[r.driver.value].wires then Resettled(ws0[x], ds) else ws0[x]
    {
      if x in ds[r.driver.value].wires {
        assert DrivesOf(ws0[x].attachments, ds) == DrivesOf(ws0[x].attachments, ds1);
      }
    }
  }

  lemma NoEventsUnmarked(ws0: seq<WireState>, ds1: seq<DriverState>, ws: seq<WireState>, seg: seq<Event>)
    requires |ws| == |ws0| && BatchEvents(ws0, ds1, ws, seg)
    requires forall x :: !Marked(ds1, x)
    ensures seg == []
  {
    if seg != [] {
      FirstEventMarked(ws0, ds1, ws, seg);
      assert false;
    }
  }

  /** Every event of a batch is about a marked wire. */
  lemma FirstEventMarked(ws0: seq<WireState>, ds1: seq<DriverState>, ws: seq<WireState>, seg: seq<Event>)
    requires |ws| == |ws0| && BatchEvents(ws0, ds1, ws, seg) && |seg| > 0
    ensures Marked(ds1, seg[0].wire)
  {
    if seg[0].Updated? {
    }
  }

  /**
   * A wire whose drivers the batch names only with the drives they already
   * have is not marked: the batch leaves it as it was and none of its events
   * is about it.
   */
  lemma RepeatsLeaveWire(ws0: seq<WireState>, ds0: seq<DriverState>, batch: seq<DriveRequest>, x: WireId,
                         ws: seq<WireState>, seg: seq<Event>)
    requires Wellformed(ws0, ds0) && BatchInRange(batch, |ds0|) && x < |ws0|
    requires forall j :: 0 <= j < |batch| && batch[j].driver.Some? && x in ds0[batch[j].driver.value].wires ==>
               batch[j].drive == ds0[batch[j].driver.value].drive
    requires |ws| == |ws0| && BatchEvents(ws0, ApplyBatch(ds0, batch), ws, seg)
    ensures !Marked(ApplyBatch(ds0, batch), x)
    ensures InRange(ws0, ApplyBatch(ds0, batch)) && Settled(ws0, ApplyBatch(ds0, batch))[x] == ws0[x]
    ensures forall k :: 0 <= k < |seg| ==> seg[k].wire != x
  {
    var ds1 := ApplyBatch(ds0, batch);
    forall e | 0 <= e < |ds0| && x in ds0[e].wires
      ensures !ds1[e].changed
    {
      RepeatsSkipped(ds0, batch, e);
    }
    ListsFrame(ws0, ds0, ws0, ds1);
  }

  /** A new driver, on no wire, keeps the invariant and every wire coherent. */
  lemma NewDriverKeeps(ws: seq<WireState>, ds: seq<DriverState>)
    requires Wellformed(ws, ds)
    ensures Wellformed(ws, ds + [NEW_DRIVER])
    ensures AllCoherent(ws, ds) ==> AllCoherent(ws, ds + [NEW_DRIVER])
  {
    var ds' := ds + [NEW_DRIVER];
    forall w, d | 0 <= w < |ws| && 0 <= d < |ds'|
      ensures multiset(ws[w].attachments)[d] == multiset(ds'[d].wires)[w]
    {
      if d < |ds| {
        assert multiset(ws[w].attachments)[d] == multiset(ds[d].wires)[w];
      } else {
        assert d !in ws[w].attachments;
      }
    }
    if AllCoherent(ws, ds) {
      forall w | 0 <= w < |ws| ensures CoherentAt(ws, ds', w) {
        assert CoherentAt(ws, ds, w);
        assert DrivesOf(ws[w].attachments, ds') == DrivesOf(ws[w].attachments, ds);
      }
    }
  }

  /** Attaching, then re-resolving the wire attached to, leaves every wire coherent. */
  lemma AttachResolvedCoherent(ws: seq<WireState>, ds: seq<DriverState>, w: WireId, d: DriverId)
    requires Wellformed(ws, ds) && w < |ws| && d < |ds| && AllCoherent(ws, ds)
    ensures var ws1, ds' := ws[w := ws[w].(attachments := ws[w].attachments + [d])],
                            ds[d := ds[d].(wires := ds[d].wires + [w])];
            InRange(ws1, ds') && AllCoherent(ws1[w := Resettled(ws1[w], ds')], ds')
  {
    AttachKeeps(ws, ds, w, d);
    var ws1, ds' := ws[w := ws[w].(attachments := ws[w].attachments + [d])],
                    ds[d := ds[d].(wires := ds[d].wires + [w])];
    var ws' := ws1[w := Resettled(ws1[w], ds')];
    ListsFrame(ws1, ds', ws', ds');
    CoherentOthers(ws, ds, ws', ds', w);
  }

  class Circuit {
    var wires: seq<WireState>
    var drivers: seq<DriverState>
    ghost var log: seq<Event>

    ghost predicate Valid()
      reads this
    {
      Wellformed(wires, drivers)
    }

    ghost predicate Coherent()
      reads this
      requires InRange(wires, drivers)
    {
      AllCoherent(wires, drivers)
    }

    /** The record a wire pointer refers to; `None` for a NULL wire. */
    function Wire(w: Option<WireId>): (r: Option<WireState>)
      reads this
      requires w.Some? ==> w.value < |wires|
      ensures r.None? <==> w.None?
    {
      if w.None? then None else Some(wires[w.value])
    }

    constructor ()
      ensures Valid() && Coherent()
      ensures wires == [] && drivers == [] && log == []
    {
      wires, drivers, log := [], [], [];
    }

    /** `qemu_allocate_wire`: a new undriven wire with the default intrinsic value. */
    method AllocateWire() returns (w: WireId)
      requires Valid()
      modifies this
      ensures Valid()
      ensures w == old(|wires|) && wires == old(wires) + [NEW_WIRE]
      ensures drivers == old(drivers) && log == old(log)
      ensures old(Coherent()) ==> Coherent()
    {
      ghost var ws0 := wires;
      w := |wires|;
      wires := wires + [NEW_WIRE];
      assert InRange(wires, drivers);
      forall u, d | 0 <= u < |wires| && 0 <= d < |drivers|
        ensures multiset(wires[u].attachments)[d] == multiset(drivers[d].wires)[u]
      {
        if u < w {
          assert multiset(ws0[u].attachments)[d] == multiset(drivers[d].wires)[u];
        } else {
          assert multiset(drivers[d].wires)[u] == 0 by {
            assert u !in drivers[d].wires;
          }
        }
      }
      if AllCoherent(ws0, drivers) {
        CoherentOthers(ws0, drivers, wires, drivers, w);
        assert DrivesOf([], drivers) == [];
      }
    }

    /** `wire_update`: re-resolve the wire against its attached drivers. */
    method WireUpdate(w: WireId)
      requires w < |wires| && AllBelow(wires[w].attachments, |drivers|)
      modifies this
      ensures drivers == old(drivers)
      ensures wires == old(wires)[w := Reresolved(old(wires[w]), drivers)]
      ensures log == old(log) + [Updated(w)]
    {
      var best, isConflict := Arbitrate(DrivesOf(wires[w].attachments, drivers));
      var x := wires[w];
      var now := Resolution(best, isConflict);
      wires := wires[w := x.(level := best, isConflict := isConflict,
                             changed := x.changed || ObservablyChanged(Cached(x), now))];
      log := log + [Updated(w)];
    }

    /** `wire_call_listeners`: call every listener, the last registered first. */
    method CallListeners(w: WireId)
      requires w < |wires|
      modifies this
      ensures drivers == old(drivers)
      ensures wires == old(wires)[w := old(wires[w]).(inCallback := false)]
      ensures log == old(log) + Calls(w, old(wires[w]).listeners, 0)
    {
      wires := wires[w := wires[w].(inCallback := true)];
      var ls := wires[w].listeners;
      var i := |ls|;
      while i > 0
        invariant 0 <= i <= |ls|
        invariant wires == old(wires)[w := old(wires[w]).(inCallback := true)]
        invariant drivers == old(drivers)
        invariant log == old(log) + Calls(w, ls, i)
      {
        i := i - 1;
        log := log + [Called(w, i, ls[i])];
      }
      wires := wires[w := wires[w].(inCallback := false)];
    }

    /** `wire_notify_if_changed`: clear a pending change, then dispatch it. */
    method NotifyIfChanged(w: WireId)
      requires w < |wires|
      modifies this
      ensures drivers == old(drivers)
      ensures old(wires[w]).changed ==>
                wires == old(wires)[w := old(wires[w]).(changed := false, inCallback := false)] &&
                log == old(log) + Calls(w, old(wires[w]).listeners, 0)
      ensures !old(wires[w]).changed ==> wires == old(wires) && log == old(log)
    {
      if wires[w].changed {
        wires := wires[w := wires[w].(changed := false)];
        CallListeners(w);
      }
    }

    /**
     * `qemu_wire_attach`: list the driver on the wire and the wire on the
     * driver. The wire is not re-resolved.
     */
    method Attach(w: Option<WireId>, d: DriverId)
      requires Valid() && d < |drivers| && (w.Some? ==> w.value < |wires|)
      modifies this
      ensures Valid() && log == old(log)
      ensures w.None? ==> wires == old(wires) && drivers == old(drivers)
      ensures w.Some? ==>
                wires == old(wires)[w.value := old(wires[w.value]).(attachments := old(wires[w.value].attachments) + [d])] &&
                drivers == old(drivers)[d := old(drivers[d]).(wires := old(drivers[d].wires) + [w.value])]
      ensures old(Coherent()) && old(drivers[d].drive.strength) == HI_Z ==> Coherent()
    {
      if w.None? {
        return;
      }
      var v := w.value;
      AttachKeeps(wires, drivers, v, d);
      if AllCoherent(wires, drivers) && drivers[d].drive.strength == HI_Z {
        AttachHiZCoherent(wires, drivers, v, d);
      }
      wires := wires[v := wires[v].(attachments := wires[v].attachments + [d])];
      drivers := drivers[d := drivers[d].(wires := drivers[d].wires + [v])];
    }

    /**
     * `qemu_wire_detach`: remove the last listing of the wire on the driver
     * and of the driver on the wire, then re-resolve and notify the wire.
     */
    method Detach(w: Option<WireId>, d: DriverId)
      requires Valid() && d < |drivers| && (w.Some? ==> w.value < |wires|)
      modifies this
      ensures Valid()
      ensures w.None? ==> wires == old(wires) && drivers == old(drivers) && log == old(log)
      ensures w.Some? ==>
                drivers == UnlinkedDrivers(old(drivers), d, w.value) &&
                wires == old(wires)[w.value := Resettled(UnlinkedWires(old(wires), w.value, d)[w.value], drivers)] &&
                log == old(log) + [Updated(w.value)] +
                       (if ObservablyChanged(Cached(old(wires[w.value])), Cached(wires[w.value]))
                        then Calls(w.value, old(wires[w.value].listeners), 0) else [])
      ensures old(Coherent()) ==> Coherent()
    {
      if w.None? {
        return;
      }
      var v := w.value;
      DetachOutcome(wires, drivers, v, d);
      Unlink(v, d);
      UpdateAndNotify(v);
    }

    /** `wire_update` followed by `wire_notify_if_changed` on a wire with no change pending. */
    method UpdateAndNotify(v: WireId)
      requires v < |wires| && AllBelow(wires[v].attachments, |drivers|)
      requires !wires[v].changed && !wires[v].inCallback
      modifies this
      ensures drivers == old(drivers)
      ensures wires == old(wires)[v := Resettled(old(wires[v]), drivers)]
      ensures log == old(log) + [Updated(v)] +
                     (if ObservablyChanged(Cached(old(wires[v])), Cached(wires[v]))
                      then Calls(v, old(wires[v].listeners), 0) else [])
    {
      WireUpdate(v);
      NotifyIfChanged(v);
    }

    /** The two backward searches and deletions of `qemu_wire_detach`. */
    method Unlink(v: WireId, d: DriverId)
      requires v < |wires| && d < |drivers|
      modifies this
      ensures log == old(log)
      ensures drivers == UnlinkedDrivers(old(drivers), d, v)
      ensures wires == UnlinkedWires(old(wires), v, d)
    {
      var found, i := FindLast(drivers[d].wires, v);
      if found {
        drivers := drivers[d := drivers[d].(wires := RemoveAt(drivers[d].wires, i))];
      }
      found, i := FindLast(wires[v].attachments, d);
      if found {
        wires := wires[v := wires[v].(attachments := RemoveAt(wires[v].attachments, i))];
      }
    }

    /** `qemu_wire_listen`: register a listener on a wire (a NULL wire ignores it). */
    method Listen(w: Option<WireId>, l: Listener)
      requires Valid() && (w.Some? ==> w.value < |wires|)
      modifies this
      ensures Valid() && drivers == old(drivers) && log == old(log)
      ensures w.None? ==> wires == old(wires)
      ensures w.Some? ==> wires == old(wires)[w.value := old(wires[w.value]).(listeners := old(wires[w.value].listeners) + [l])]
      ensures old(Coherent()) ==> Coherent()
    {
      ghost var ws0 := wires;
      if w.Some? {
        wires := wires[w.value := wires[w.value].(listeners := wires[w.value].listeners + [l])];
      }
      ListsFrame(ws0, drivers, wires, drivers);
      if AllCoherent(ws0, drivers) {
        CoherentOthers(ws0, drivers, wires, drivers, -1);
      }
    }

    /** `qemu_wire_unlisten`: remove the most recently registered matching listener. */
    method Unlisten(w: Option<WireId>, l: Listener)
      requires Valid() && (w.Some? ==> w.value < |wires|)
      modifies this
      ensures Valid() && drivers == old(drivers) && log == old(log)
      ensures w.None? ==> wires == old(wires)
      ensures w.Some? ==> wires == old(wires)[w.value := old(wires[w.value]).(listeners := RemoveLast(old(wires[w.value].listeners), l))]
      ensures old(Coherent()) ==> Coherent()
    {
      ghost var ws0 := wires;
      if w.Some? {
        var v := w.value;
        var found, i := FindLast(wires[v].listeners, l);
        if found {
          wires := wires[v := wires[v].(listeners := RemoveAt(wires[v].listeners, i))];
        }
      }
      ListsFrame(ws0, drivers, wires, drivers);
      if AllCoherent(ws0, drivers) {
        CoherentOthers(ws0, drivers, wires, drivers, -1);
      }
    }

    /** `qemu_set_wire_intrinsic`: the analogue value digital true reads as. */
    method SetIntrinsic(w: Option<WireId>, value: int)
      requires Valid() && (w.Some? ==> w.value < |wires|)
      modifies this
      ensures Valid() && drivers == old(drivers) && log == old(log)
      ensures w.None? ==> wires == old(wires)
      ensures w.Some? ==> wires == old(wires)[w.value := old(wires[w.value]).(intrinsic := value)]
      ensures old(Coherent()) ==> Coherent()
    {
      ghost var ws0 := wires;
      if w.Some? {
        wires := wires[w.value := wires[w.value].(intrinsic := value)];
      }
      ListsFrame(ws0, drivers, wires, drivers);
      if AllCoherent(ws0, drivers) {
        CoherentOthers(ws0, drivers, wires, drivers, -1);
      }
    }

    /** The inner loop of phase one: mark every wire on driver `d`'s list. */
    method MarkWires(d: DriverId)
      requires d < |drivers| && AllBelow(drivers[d].wires, |wires|)
      modifies this
      ensures drivers == old(drivers) && log == old(log) && |wires| == old(|wires|)
      ensures forall x :: 0 <= x < |wires| ==>
                wires[x] == old(wires[x]).(driverChanged := old(wires[x].driverChanged) || x in drivers[d].wires)
    {
      var ids := drivers[d].wires;
      var i := 0;
      while i < |ids|
        invariant 0 <= i <= |ids|
        invariant drivers == old(drivers) && log == old(log) && |wires| == old(|wires|)
        invariant forall x :: 0 <= x < |wires| ==>
                    wires[x] == old(wires[x]).(driverChanged := old(wires[x].driverChanged) || x in ids[..i])
      {
        assert ids[..i + 1] == ids[..i] + [ids[i]];
        var x := ids[i];
        wires := wires[x := wires[x].(driverChanged := true)];
        i := i + 1;
      }
      assert ids[..i] == ids;
    }

    /** Phase one of `qemu_wire_multi_drive`: copy the new drives in and mark the wires they reach. */
    method ApplyPhase(batch: seq<DriveRequest>)
      requires InRange(wires, drivers) && BatchInRange(batch, |drivers|)
      requires forall x :: 0 <= x < |wires| ==> !wires[x].driverChanged
      requires forall e :: 0 <= e < |drivers| ==> !drivers[e].changed
      modifies this
      ensures drivers == ApplyBatch(old(drivers), batch) && log == old(log)
      ensures |wires| == old(|wires|)
      ensures forall x :: 0 <= x < |wires| ==> wires[x] == old(wires[x]).(driverChanged := Marked(drivers, x))
    {
      var j := 0;
      while j < |batch|
        invariant 0 <= j <= |batch|
        invariant drivers == ApplyBatch(old(drivers), batch[..j]) && log == old(log)
        invariant |wires| == old(|wires|)
        invariant forall x :: 0 <= x < |wires| ==> wires[x] == old(wires[x]).(driverChanged := Marked(drivers, x))
      {
        assert batch[..j + 1][..j] == batch[..j];
        var r := batch[j];
        if r.driver.Some? && drivers[r.driver.value].drive != r.drive {
          var d := r.driver.value;
          ghost var ds0 := drivers;
          assert AllBelow(drivers[d].wires, |wires|) by {
            assert drivers[d].wires == old(drivers[d].wires);
          }
          drivers := drivers[d := drivers[d].(drive := r.drive, changed := true)];
          MarkWires(d);
          forall x | 0 <= x < |wires| ensures Marked(drivers, x) == (Marked(ds0, x) || x in ds0[d].wires) {
            MarkedAfterFlag(ds0, d, r.drive, x);
          }
        }
        j := j + 1;
      }
      assert batch[..j] == batch;
    }

    /** The inner loop of phase two: re-resolve each still-marked wire on driver `d`'s list. */
    method ResolveWiresOf(d: DriverId, ghost ws0: seq<WireState>, ghost start: nat)
      requires d < |drivers| && InRange(ws0, drivers) && WiresQuiet(ws0)
      requires start <= |log| && ResolveProgress(ws0, drivers, wires, log[start..])
      modifies this
      ensures drivers == old(drivers) && |old(log)| <= |log| && log[..|old(log)|] == old(log)
      ensures ResolveProgress(ws0, drivers, wires, log[start..])
      ensures forall x :: 0 <= x < |wires| && !old(wires[x].driverChanged) ==> !wires[x].driverChanged
      ensures forall i :: 0 <= i < |drivers[d].wires| ==> !wires[drivers[d].wires[i]].driverChanged
    {
      var ids := drivers[d].wires;
      var i := 0;
      while i < |ids|
        invariant 0 <= i <= |ids|
        invariant drivers == old(drivers) && |old(log)| <= |log| && log[..|old(log)|] == old(log)
        invariant ResolveProgress(ws0, drivers, wires, log[start..])
        invariant forall x :: 0 <= x < |wires| && !old(wires[x].driverChanged) ==> !wires[x].driverChanged
        invariant forall k :: 0 <= k < i ==> !wires[ids[k]].driverChanged
      {
        ResolveOne(ids[i], ws0, start);
        i := i + 1;
      }
    }

    /** The body of phase two's inner loop: re-resolve wire `x` if it is still marked. */
    method ResolveOne(x: WireId, ghost ws0: seq<WireState>, ghost start: nat)
      requires x < |wires| && InRange(ws0, drivers) && WiresQuiet(ws0)
      requires start <= |log| && ResolveProgress(ws0, drivers, wires, log[start..])
      modifies this
      ensures drivers == old(drivers) && |old(log)| <= |log| && log[..|old(log)|] == old(log)
      ensures ResolveProgress(ws0, drivers, wires, log[start..])
      ensures forall y :: 0 <= y < |wires| && y != x ==> wires[y] == old(wires[y])
      ensures !wires[x].driverChanged
    {
      if wires[x].driverChanged {
        ghost var ws1 := wires;
        ResolveStep(ws0, drivers, wires, log[start..], x);
        AppendedSlices(log, Updated(x), start);
        WireUpdate(x);
        UpdatedTwice(ws1, x, Reresolved(ws1[x], drivers), Reresolved(ws1[x], drivers).(driverChanged := false));
        wires := wires[x := wires[x].(driverChanged := false)];
      }
    }

    /** Phase two of `qemu_wire_multi_drive`: re-resolve every marked wire once. */
    method ResolvePhase(batch: seq<DriveRequest>, ghost ws0: seq<WireState>)
      requires InRange(ws0, drivers) && WiresQuiet(ws0) && BatchInRange(batch, |drivers|)
      requires |wires| == |ws0| && forall x :: 0 <= x < |wires| ==> wires[x] == ws0[x].(driverChanged := Marked(drivers, x))
      requires forall e :: 0 <= e < |drivers| && drivers[e].changed ==> Named(batch, e)
      modifies this
      ensures drivers == old(drivers) && wires == Resolved(ws0, drivers)
      ensures |old(log)| <= |log| && log[..|old(log)|] == old(log)
      ensures ResolveProgress(ws0, drivers, wires, log[|old(log)|..])
    {
      ghost var start := |log|;
      assert ResolveProgress(ws0, drivers, wires, log[start..]);
      var j := 0;
      while j < |batch|
        invariant 0 <= j <= |batch|
        invariant drivers == old(drivers) && |old(log)| <= |log| && log[..|old(log)|] == old(log)
        invariant ResolveProgress(ws0, drivers, wires, log[start..])
        invariant forall k :: 0 <= k < j && batch[k].driver.Some? && drivers[batch[k].driver.value].changed ==>
                    forall i :: 0 <= i < |drivers[batch[k].driver.value].wires| ==>
                      !wires[drivers[batch[k].driver.value].wires[i]].driverChanged
      {
        var r := batch[j];
        if r.driver.Some? && drivers[r.driver.value].changed {
          ResolveWiresOf(r.driver.value, ws0, start);
        }
        j := j + 1;
      }
      forall x | 0 <= x < |wires| ensures !wires[x].driverChanged {
        if Marked(drivers, x) {
          var e :| 0 <= e < |drivers| && drivers[e].changed && x in drivers[e].wires;
          var k :| 0 <= k < |batch| && batch[k].driver == Some(e);
          var i :| 0 <= i < |drivers[e].wires| && drivers[e].wires[i] == x;
        }
      }
      assert wires == Resolved(ws0, drivers);
    }

    /** The body of phase three's inner loop: dispatch wire `x` if it has a change pending. */
    method NotifyOne(x: WireId, ghost ws2: seq<WireState>, ghost start: nat)
      requires x < |wires| && start <= |log| && NotifyProgress(ws2, wires, log[start..])
      requires forall y :: 0 <= y < |ws2| ==> !ws2[y].inCallback
      modifies this
      ensures drivers == old(drivers) && |old(log)| <= |log| && log[..|old(log)|] == old(log)
      ensures NotifyProgress(ws2, wires, log[start..])
      ensures forall y :: 0 <= y < |wires| && y != x ==> wires[y] == old(wires[y])
      ensures !wires[x].changed
    {
      if wires[x].changed {
        ghost var log0 := log;
        NotifyStep(ws2, wires, log[start..], x);
        NotifyIfChanged(x);
        assert log[start..] == log0[start..] + Calls(x, old(wires[x].listeners), 0);
      }
    }

    /** The inner loop of phase three: dispatch each wire on driver `d`'s list. */
    method NotifyWiresOf(d: DriverId, ghost ws2: seq<WireState>, ghost start: nat)
      requires d < |drivers| && AllBelow(drivers[d].wires, |wires|)
      requires start <= |log| && NotifyProgress(ws2, wires, log[start..])
      requires forall y :: 0 <= y < |ws2| ==> !ws2[y].inCallback
      modifies this
      ensures drivers == old(drivers) && |old(log)| <= |log| && log[..|old(log)|] == old(log)
      ensures NotifyProgress(ws2, wires, log[start..])
      ensures forall x :: 0 <= x < |wires| && !old(wires[x].changed) ==> !wires[x].changed
      ensures forall i :: 0 <= i < |drivers[d].wires| ==> !wires[drivers[d].wires[i]].changed
    {
      var ids := drivers[d].wires;
      var i := 0;
      while i < |ids|
        invariant 0 <= i <= |ids|
        invariant drivers == old(drivers) && |old(log)| <= |log| && log[..|old(log)|] == old(log)
        invariant NotifyProgress(ws2, wires, log[start..])
        invariant forall x :: 0 <= x < |wires| && !old(wires[x].changed) ==> !wires[x].changed
        invariant forall k :: 0 <= k < i ==> !wires[ids[k]].changed
      {
        NotifyOne(ids[i], ws2, start);
        i := i + 1;
      }
    }

    /** Phase three of `qemu_wire_multi_drive`: clear the driver flags and dispatch the changed wires. */
    method NotifyPhase(batch: seq<DriveRequest>, ghost ds1: seq<DriverState>)
      requires drivers == ds1 && InRange(wires, ds1) && BatchInRange(batch, |ds1|)
      requires forall x :: 0 <= x < |wires| ==> !wires[x].inCallback
      requires forall x :: 0 <= x < |wires| && wires[x].changed ==> Marked(ds1, x)
      requires forall e :: 0 <= e < |ds1| && ds1[e].changed ==> Named(batch, e)
      modifies this
      ensures drivers == Unflagged(ds1)
      ensures |wires| == old(|wires|) && forall x :: 0 <= x < |wires| ==> wires[x] == old(wires[x]).(changed := false)
      ensures |old(log)| <= |log| && log[..|old(log)|] == old(log)
      ensures NotifyProgress(old(wires), wires, log[|old(log)|..])
    {
      ghost var ws2, start := wires, |log|;
      var j := 0;
      while j < |batch|
        invariant 0 <= j <= |batch|
        invariant |drivers| == |ds1|
        invariant forall e :: 0 <= e < |ds1| ==>
                    drivers[e] == ds1[e].(changed := drivers[e].changed) && (drivers[e].changed ==> ds1[e].changed)
        invariant |old(log)| <= |log| && log[..|old(log)|] == old(log)
        invariant NotifyProgress(ws2, wires, log[start..])
        invariant forall k :: 0 <= k < j && batch[k].driver.Some? ==> !drivers[batch[k].driver.value].changed
        invariant forall e :: 0 <= e < |ds1| && ds1[e].changed && !drivers[e].changed ==>
                    forall i :: 0 <= i < |ds1[e].wires| ==> !wires[ds1[e].wires[i]].changed
      {
        var r := batch[j];
        if r.driver.Some? && drivers[r.driver.value].changed {
          var d := r.driver.value;
          drivers := drivers[d := drivers[d].(changed := false)];
          NotifyWiresOf(d, ws2, start);
        }
        j := j + 1;
      }
      forall e | 0 <= e < |drivers| ensures !drivers[e].changed {
        if ds1[e].changed {
          var k :| 0 <= k < |batch| && batch[k].driver == Some(e);
        }
      }
      assert drivers == Unflagged(ds1);
      forall x | 0 <= x < |wires| ensures !wires[x].changed {
        if ws2[x].changed {
          var e :| 0 <= e < |ds1| && ds1[e].changed && x in ds1[e].wires;
          var k :| 0 <= k < |batch| && batch[k].driver == Some(e);
          var i :| 0 <= i < |ds1[e].wires| && ds1[e].wires[i] == x;
        }
      }
    }

    /**
     * `qemu_wire_multi_drive`: give each named driver its new drive, then
     * re-resolve every wire a changed driver is attached to, then call the
     * listeners of those whose view changed.
     */
    method MultiDrive(batch: seq<DriveRequest>)
      requires Valid() && BatchInRange(batch, |drivers|)
      modifies this
      ensures Valid()
      ensures drivers == Unflagged(ApplyBatch(old(drivers), batch))
      ensures wires == Settled(old(wires), ApplyBatch(old(drivers), batch))
      ensures |old(log)| <= |log| && log[..|old(log)|] == old(log)
      ensures BatchEvents(old(wires), ApplyBatch(old(drivers), batch), wires, log[|old(log)|..])
      ensures old(Coherent()) ==> Coherent()
    {
      BatchKeeps(wires, drivers, batch);
      FlaggedAreNamed(drivers, batch);
      ghost var ws0 := wires;
      ApplyPhase(batch);
      ResolveAndNotify(batch, ws0);
    }

    /** Phases two and three of `qemu_wire_multi_drive`, once phase one has marked the wires. */
    method ResolveAndNotify(batch: seq<DriveRequest>, ghost ws0: seq<WireState>)
      requires InRange(ws0, drivers) && WiresQuiet(ws0) && BatchInRange(batch, |drivers|)
      requires |wires| == |ws0| && forall x :: 0 <= x < |wires| ==> wires[x] == ws0[x].(driverChanged := Marked(drivers, x))
      requires forall e :: 0 <= e < |drivers| && drivers[e].changed ==> Named(batch, e)
      modifies this
      ensures drivers == Unflagged(old(drivers))
      ensures wires == Settled(ws0, old(drivers))
      ensures |old(log)| <= |log| && log[..|old(log)|] == old(log)
      ensures BatchEvents(ws0, old(drivers), wires, log[|old(log)|..])
    {
      ghost var ds1, start := drivers, |log|;
      ResolvePhase(batch, ws0);
      ghost var middle := |log|;
      ghost var updates := log[start..];
      NotifyPhase(batch, ds1);
      SettledAfterNotify(ws0, ds1, wires);
      assert log[start..middle] == updates;
      BatchEventsCompose(ws0, ds1, updates, log[middle..]);
      SplitAt(log, start, middle);
    }

    /** `qemu_wire_drive_z`, `qemu_wire_drive` and `qemu_wire_drive_a`: a batch of one request. */
    method DriveOne(d: Option<DriverId>, v: Drive)
      requires Valid() && (d.Some? ==> d.value < |drivers|)
      modifies this
      ensures Valid() && (old(Coherent()) ==> Coherent())
      ensures SameLists(old(wires), wires) && |drivers| == old(|drivers|)
      ensures d.Some? ==> drivers[d.value] == old(drivers[d.value]).(drive := v)
      ensures d.None? || old(drivers[d.value].drive) == v ==>
                wires == old(wires) && drivers == old(drivers) && log == old(log)
      ensures d.Some? && old(drivers[d.value].drive) != v ==>
                drivers == old(drivers)[d.value := old(drivers[d.value]).(drive := v)] &&
                |wires| == old(|wires|) &&
                (forall x :: 0 <= x < |wires| ==>
                   wires[x] == if x in drivers[d.value].wires then Resettled(old(wires[x]), drivers) else old(wires[x])) &&
                |old(log)| <= |log| && log[..|old(log)|] == old(log) &&
                BatchEvents(old(wires), old(drivers)[d.value := old(drivers[d.value]).(drive := v, changed := true)],
                            wires, log[|old(log)|..])
    {
      var r := DriveRequest(d, v);
      SingleRequest(wires, drivers, r);
      ghost var ws0, ds0 := wires, drivers;
      MultiDrive([r]);
      if d.None? || ds0[d.value].drive == v {
        SingleNoChange(ws0, ds0, r, log[|old(log)|..]);
        NothingAppended(old(log), log);
      } else {
        SingleChange(ws0, ds0, r);
      }
    }

    /** `qemu_wire_drive_z`: stop driving (Hi-Z, digital false). */
    method DriveHiZ(d: Option<DriverId>)
      requires Valid() && (d.Some? ==> d.value < |drivers|)
      modifies this
      ensures Valid() && (old(Coherent()) ==> Coherent())
      ensures SameLists(old(wires), wires)
      ensures |drivers| == old(|drivers|) && forall e :: 0 <= e < |drivers| && d != Some(e) ==> drivers[e] == old(drivers[e])
      ensures d.Some? ==> drivers[d.value] == old(drivers[d.value]).(drive := DigitalDrive(HI_Z, false))
      ensures d.None? || old(drivers[d.value].drive) == DigitalDrive(HI_Z, false) ==>
                wires == old(wires) && drivers == old(drivers) && log == old(log)
      ensures d.Some? && old(drivers[d.value].drive) != DigitalDrive(HI_Z, false) ==>
                (forall x :: 0 <= x < |wires| ==>
                   wires[x] == if x in drivers[d.value].wires then Resettled(old(wires[x]), drivers) else old(wires[x])) &&
                |old(log)| <= |log| && log[..|old(log)|] == old(log) &&
                BatchEvents(old(wires), old(drivers)[d.value := old(drivers[d.value]).(drive := DigitalDrive(HI_Z, false), changed := true)],
                            wires, log[|old(log)|..])
    {
      DriveOne(d, DigitalDrive(HI_Z, false));
    }

    /** `qemu_wire_drive`: drive a digital value at a strength. */
    method DriveDigital(d: Option<DriverId>, strength: Strength, dval: bool)
      requires Valid() && (d.Some? ==> d.value < |drivers|)
      modifies this
      ensures Valid() && (old(Coherent()) ==> Coherent())
      ensures SameLists(old(wires), wires)
      ensures |drivers| == old(|drivers|) && forall e :: 0 <= e < |drivers| && d != Some(e) ==> drivers[e] == old(drivers[e])
      ensures d.Some? ==> drivers[d.value] == old(drivers[d.value]).(drive := DigitalDrive(strength, dval))
      ensures d.None? || old(drivers[d.value].drive) == DigitalDrive(strength, dval) ==>
                wires == old(wires) && drivers == old(drivers) && log == old(log)
      ensures d.Some? && old(drivers[d.value].drive) != DigitalDrive(strength, dval) ==>
                (forall x :: 0 <= x < |wires| ==>
                   wires[x] == if x in drivers[d.value].wires then Resettled(old(wires[x]), drivers) else old(wires[x])) &&
                |old(log)| <= |log| && log[..|old(log)|] == old(log) &&
                BatchEvents(old(wires), old(drivers)[d.value := old(drivers[d.value]).(drive := DigitalDrive(strength, dval), changed := true)],
                            wires, log[|old(log)|..])
    {
      DriveOne(d, DigitalDrive(strength, dval));
    }

    /** `qemu_wire_drive_a`: drive an analogue value at a strength. */
    method DriveAnalogue(d: Option<DriverId>, strength: Strength, aval: int)
      requires Valid() && (d.Some? ==> d.value < |drivers|)
      modifies this
      ensures Valid() && (old(Coherent()) ==> Coherent())
      ensures SameLists(old(wires), wires)
      ensures |drivers| == old(|drivers|) && forall e :: 0 <= e < |drivers| && d != Some(e) ==> drivers[e] == old(drivers[e])
      ensures d.Some? ==> drivers[d.value] == old(drivers[d.value]).(drive := Drive(strength, Analogue, aval))
      ensures d.None? || old(drivers[d.value].drive) == Drive(strength, Analogue, aval) ==>
                wires == old(wires) && drivers == old(drivers) && log == old(log)
      ensures d.Some? && old(drivers[d.value].drive) != Drive(strength, Analogue, aval) ==>
                (forall x :: 0 <= x < |wires| ==>
                   wires[x] == if x in drivers[d.value].wires then Resettled(old(wires[x]), drivers) else old(wires[x])) &&
                |old(log)| <= |log| && log[..|old(log)|] == old(log) &&
                BatchEvents(old(wires), old(drivers)[d.value := old(drivers[d.value]).(drive := Drive(strength, Analogue, aval), changed := true)],
                            wires, log[|old(log)|..])
    {
      DriveOne(d, Drive(strength, Analogue, aval));
    }

    /** `qemu_allocate_wiredriver`: a new Hi-Z driver, attached to `w` unless it is NULL. */
    method AllocateWireDriver(w: Option<WireId>) returns (d: DriverId)
      requires Valid() && (w.Some? ==> w.value < |wires|)
      modifies this
      ensures Valid() && log == old(log) && (old(Coherent()) ==> Coherent())
      ensures d == old(|drivers|)
      ensures w.None? ==> wires == old(wires) && drivers == old(drivers) + [NEW_DRIVER]
      ensures w.Some? ==>
                drivers == old(drivers) + [NEW_DRIVER.(wires := [w.value])] &&
                wires == old(wires)[w.value := old(wires[w.value]).(attachments := old(wires[w.value].attachments) + [d])]
    {
      NewDriverKeeps(wires, drivers);
      d := |drivers|;
      ghost var ds0 := drivers;
      drivers := drivers + [NEW_DRIVER];
      Attach(w, d);
      if w.Some? {
        assert NEW_DRIVER.wires + [w.value] == [w.value];
        ReplaceAppended(ds0, NEW_DRIVER, NEW_DRIVER.(wires := NEW_DRIVER.wires + [w.value]));
      }
    }

    /**
     * `qemu_wire_attach` as evidently intended: attach, then re-resolve and
     * notify the wire, so that a driver already driving takes effect at once.
     */
    method AttachResolved(w: Option<WireId>, d: DriverId)
      requires Valid() && d < |drivers| && (w.Some? ==> w.value < |wires|)
      modifies this
      ensures Valid() && (old(Coherent()) ==> Coherent())
      ensures w.None? ==> wires == old(wires) && drivers == old(drivers) && log == old(log)
      ensures |wires| == old(|wires|)
      ensures w.Some? ==>
                drivers == old(drivers)[d := old(drivers[d]).(wires := old(drivers[d].wires) + [w.value])] &&
                wires[w.value].attachments == old(wires[w.value].attachments) + [d] &&
                Cached(wires[w.value]) == Resolve(DrivesOf(wires[w.value].attachments, drivers)) &&
                forall u :: 0 <= u < |wires| && u != w.value ==> wires[u] == old(wires[u])
    {
      if w.Some? {
        if AllCoherent(wires, drivers) {
          AttachResolvedCoherent(wires, drivers, w.value, d);
        }
        Attach(w, d);
        ResettleKeeps(wires, drivers, w.value);
        UpdateAndNotify(w.value);
      }
    }

    /** `qemu_wire_detach` on a non-NULL wire, as the clearing loops use it. */
    method DetachStep(x: WireId, d: DriverId)
      requires Valid() && x < |wires| && d < |drivers|
      modifies this
      ensures Valid() && (old(Coherent()) ==> Coherent())
      ensures |wires| == old(|wires|) && drivers == UnlinkedDrivers(old(drivers), d, x)
      ensures wires[x].attachments == RemoveLast(old(wires[x].attachments), d)
      ensures wires[x].listeners == old(wires[x].listeners) && wires[x].intrinsic == old(wires[x].intrinsic)
      ensures Cached(wires[x]) == Resolve(DrivesOf(wires[x].attachments, drivers))
      ensures forall u :: 0 <= u < |wires| && u != x ==> wires[u] == old(wires[u])
      ensures GrewAbout(old(log), log, {x})
    {
      ghost var log0, ws0 := log, wires;
      Detach(Some(x), d);
      assert wires[x].attachments == UnlinkedWires(ws0, x, d)[x].attachments;
      DetachedWire(ws0, drivers, x, d);
      DetachEventsAbout(log0, x, ws0[x].listeners, ObservablyChanged(Cached(ws0[x]), Cached(wires[x])));
    }

    /** One round of `wire_clear`: detach the driver attached last. */
    method DetachLastDriver(w: WireId)
      requires Valid() && w < |wires| && |wires[w].attachments| > 0
      modifies this
      ensures Valid() && (old(Coherent()) ==> Coherent())
      ensures |wires| == old(|wires|)
      ensures wires[w].listeners == old(wires[w].listeners) && wires[w].intrinsic == old(wires[w].intrinsic)
      ensures wires[w].attachments == old(wires[w].attachments)[..|old(wires[w].attachments)| - 1]
      ensures Cached(wires[w]) == Resolve(DrivesOf(wires[w].attachments, drivers))
      ensures forall u :: 0 <= u < |wires| && u != w ==> wires[u] == old(wires[u])
      ensures DriversKeptBut(old(drivers), drivers, w)
      ensures GrewAbout(old(log), log, {w})
    {
      var att := wires[w].attachments;
      assert AllBelow(att, |drivers|);
      var d := att[|att| - 1];
      ghost var ds0 := drivers;
      RemoveLastOfLast(att);
      DetachStep(w, d);
      UnlinkedDriversKept(ds0, d, w);
    }

    /** The first loop of `wire_clear`: detach every driver, the last attached first. */
    method DetachAll(w: WireId)
      requires Valid() && w < |wires|
      modifies this
      ensures Valid() && (old(Coherent()) ==> Coherent())
      ensures |wires| == old(|wires|) && wires[w].attachments == []
      ensures wires[w].listeners == old(wires[w].listeners) && wires[w].intrinsic == old(wires[w].intrinsic)
      ensures Cached(wires[w]) == if old(wires[w].attachments) == [] then Cached(old(wires[w])) else Resolution(UNDRIVEN, false)
      ensures forall u :: 0 <= u < |wires| && u != w ==> wires[u] == old(wires[u])
      ensures DriversKeptBut(old(drivers), drivers, w)
      ensures GrewAbout(old(log), log, {w})
    {
      while |wires[w].attachments| > 0
        invariant Valid() && (old(Coherent()) ==> Coherent())
        invariant |wires| == old(|wires|)
        invariant wires[w].listeners == old(wires[w].listeners) && wires[w].intrinsic == old(wires[w].intrinsic)
        invariant Cached(wires[w]) == if |wires[w].attachments| == |old(wires[w].attachments)| then Cached(old(wires[w]))
                                      else Resolve(DrivesOf(wires[w].attachments, drivers))
        invariant |wires[w].attachments| <= |old(wires[w].attachments)|
        invariant forall u :: 0 <= u < |wires| && u != w ==> wires[u] == old(wires[u])
        invariant DriversKeptBut(old(drivers), drivers, w)
        invariant GrewAbout(old(log), log, {w})
        decreases |wires[w].attachments|
      {
        ghost var ds0, log0 := drivers, log;
        DetachLastDriver(w);
        DriversKeptTrans(old(drivers), ds0, drivers, w);
        GrewTrans(old(log), log0, log, {w});
      }
    }

    /** The second loop of `wire_clear`: unlisten every listener, the last first. */
    method UnlistenAll(w: WireId)
      requires Valid() && w < |wires|
      modifies this
      ensures Valid() && (old(Coherent()) ==> Coherent())
      ensures drivers == old(drivers) && log == old(log) && |wires| == old(|wires|)
      ensures wires[w] == old(wires[w]).(listeners := [])
      ensures forall u :: 0 <= u < |wires| && u != w ==> wires[u] == old(wires[u])
    {
      while |wires[w].listeners| > 0
        invariant Valid() && (old(Coherent()) ==> Coherent())
        invariant drivers == old(drivers) && log == old(log) && |wires| == old(|wires|)
        invariant wires[w] == old(wires[w]).(listeners := wires[w].listeners)
        invariant forall u :: 0 <= u < |wires| && u != w ==> wires[u] == old(wires[u])
        decreases |wires[w].listeners|
      {
        var ls := wires[w].listeners;
        RemoveLastOfLast(ls);
        Unlisten(Some(w), ls[|ls| - 1]);
      }
    }

    /** `wire_clear`: detach every driver, the last attached first, then drop every listener. */
    method WireClear(w: WireId)
      requires Valid() && w < |wires|
      modifies this
      ensures Valid() && (old(Coherent()) ==> Coherent())
      ensures |wires| == old(|wires|)
      ensures wires[w].attachments == [] && wires[w].listeners == [] && wires[w].intrinsic == old(wires[w].intrinsic)
      ensures Cached(wires[w]) == if old(wires[w].attachments) == [] then Cached(old(wires[w])) else Resolution(UNDRIVEN, false)
      ensures forall u :: 0 <= u < |wires| && u != w ==> wires[u] == old(wires[u])
      ensures DriversKeptBut(old(drivers), drivers, w)
      ensures forall e :: 0 <= e < |drivers| ==> w !in drivers[e].wires
      ensures GrewAbout(old(log), log, {w})
    {
      DetachAll(w);
      WireUnlinked(wires, drivers, w);
      UnlistenAll(w);
    }

    /** One round of `wiredriver_clear`: detach the driver from the wire it lists last. */
    method DetachLastWire(d: DriverId)
      requires Valid() && d < |drivers| && |drivers[d].wires| > 0
      modifies this
      ensures Valid() && (old(Coherent()) ==> Coherent())
      ensures Trimmed(old(drivers), drivers, d) && drivers[d].wires == old(drivers[d].wires)[..|old(drivers[d].wires)| - 1]
      ensures WiresKeptBut(old(wires), wires, d)
      ensures GrewAbout(old(log), log, {old(drivers[d].wires)[|old(drivers[d].wires)| - 1]})
    {
      var ws := drivers[d].wires;
      var x := ws[|ws| - 1];
      ghost var wires0, drivers0 := wires, drivers;
      DetachStep(x, d);
      LastWireDetached(wires0, drivers0, wires, drivers, d, x);
    }

    /** `wiredriver_clear`: detach the driver from each of its wires, the last first. */
    method WiredriverClear(d: DriverId)
      requires Valid() && d < |drivers|
      modifies this
      ensures Valid() && (old(Coherent()) ==> Coherent())
      ensures |drivers| == old(|drivers|) && drivers[d] == old(drivers[d]).(wires := [])
      ensures forall e :: 0 <= e < |drivers| && e != d ==> drivers[e] == old(drivers[e])
      ensures WiresKeptBut(old(wires), wires, d)
      ensures forall x :: 0 <= x < |wires| ==> d !in wires[x].attachments
      ensures GrewAbout(old(log), log, set x | x in old(drivers[d].wires))
    {
      ghost var xs := set x | x in old(drivers[d].wires);
      while |drivers[d].wires| > 0
        invariant Valid() && (old(Coherent()) ==> Coherent())
        invariant Trimmed(old(drivers), drivers, d)
        invariant WiresKeptBut(old(wires), wires, d)
        invariant GrewAbout(old(log), log, xs)
        decreases |drivers[d].wires|
      {
        ghost var wires0, log0, n := wires, log, |drivers[d].wires|;
        assert drivers[d].wires[n - 1] in xs;
        ghost var drivers0 := drivers;
        DetachLastWire(d);
        TrimmedTrans(old(drivers), drivers0, drivers, d);
        WiresKeptTrans(old(wires), wires0, wires, d);
        GrewTrans(old(log), log0, log, xs);
      }
      DriverUnlinked(wires, drivers, d);
    }

    /** `qemu_free_wire`: clear a non-NULL wire. */
    method FreeWire(w: Option<WireId>)
      requires Valid() && (w.Some? ==> w.value < |wires|)
      modifies this
      ensures Valid() && (old(Coherent()) ==> Coherent())
      ensures w.None? ==> wires == old(wires) && drivers == old(drivers) && log == old(log)
      ensures w.Some? ==> |wires| == old(|wires|) && wires[w.value].attachments == [] && wires[w.value].listeners == []
      ensures |drivers| == old(|drivers|)
      ensures w.Some? ==> forall e :: 0 <= e < |drivers| ==> w.value !in drivers[e].wires
      ensures w.Some? ==>
                wires[w.value].intrinsic == old(wires[w.value].intrinsic) &&
                Cached(wires[w.value]) ==
                  (if old(wires[w.value].attachments) == [] then Cached(old(wires[w.value])) else Resolution(UNDRIVEN, false)) &&
                (forall u :: 0 <= u < |wires| && u != w.value ==> wires[u] == old(wires[u])) &&
                DriversKeptBut(old(drivers), drivers, w.value) &&
                GrewAbout(old(log), log, {w.value})
    {
      if w.Some? {
        WireClear(w.value);
      }
    }

    /** `qemu_free_wiredriver`: clear a non-NULL driver. */
    method FreeWireDriver(d: Option<DriverId>)
      requires Valid() && (d.Some? ==> d.value < |drivers|)
      modifies this
      ensures Valid() && (old(Coherent()) ==> Coherent())
      ensures d.None? ==> wires == old(wires) && drivers == old(drivers) && log == old(log)
      ensures |wires| == old(|wires|) && |drivers| == old(|drivers|)
      ensures d.Some? ==> drivers[d.value].wires == [] && forall x :: 0 <= x < |wires| ==> d.value !in wires[x].attachments
      ensures d.Some? ==>
                drivers[d.value] == old(drivers[d.value]).(wires := []) &&
                (forall e :: 0 <= e < |drivers| && e != d.value ==> drivers[e] == old(drivers[e])) &&
                WiresKeptBut(old(wires), wires, d.value) &&
                GrewAbout(old(log), log, set x | x in old(drivers[d.value].wires))
    {
      if d.Some? {
        WiredriverClear(d.value);
      }
    }
  }
}