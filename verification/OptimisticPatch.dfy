/** Patch as a read-modify-write against other writers of the same object.

Other writers act between any two of its calls, every write takes a fresh, larger
resource version, and an update that carries a version is a conflict unless that
is the object's current one. */
module OptimisticPatch {

  import opened Errors
  import opened Objects
  import Lifecycle

  datatype Cell = Absent | Live(version: nat, content: string)

  datatype Write = Put(content: string) | Remove

  /** What the patch list makes of a live object: the version it leaves in the
      metadata, if any, and the new content. None is a patch list that fails. */
  datatype Patched = Patched(version: Option<nat>, content: string)

  type Patches = (nat, string) -> Option<Patched>

  /** A refused call may still have landed. */
  datatype Reply = Served | Refused(fault: Fault, landed: bool)

  /** What the others write before the t-th call, and how that call is answered. */
  datatype Setting = Setting(others: nat -> seq<Write>, replies: nat -> Reply)

  ghost predicate RefusedHasNoEffect(setting: Setting) {
    forall t :: setting.replies(t).Refused? ==> !setting.replies(t).landed
  }

  /** A write of ours: the state it was computed from, the state it replaced, and
      whether the server acknowledged it. */
  datatype OwnWrite = OwnWrite(read: Cell, replaced: Cell, written: string, acknowledged: bool)

  datatype Server = Server(cell: Cell, counter: nat, clock: nat, own: seq<OwnWrite>)

  predicate WellFormed(s: Server) {
    s.cell.Live? ==> s.cell.version <= s.counter
  }

  // ---- one attempt ----

  function Interfere(s: Server, ws: seq<Write>): Server {
    if ws == [] then s
    else
      var before := Interfere(s, ws[..|ws| - 1]);
      var next := before.counter + 1;
      before.(counter := next, cell := match ws[|ws| - 1] case Put(c) => Live(next, c) case Remove => Absent)
  }

  /** The server when our next call reaches it. */
  function Arrive(setting: Setting, s: Server): Server {
    Interfere(s, setting.others(s.clock)).(clock := s.clock + 1)
  }

  function Commit(s: Server, read: Cell, content: string, acknowledged: bool): Server {
    s.(counter := s.counter + 1, cell := Live(s.counter + 1, content),
       own := s.own + [OwnWrite(read, s.cell, content, acknowledged)])
  }

  predicate Admits(cell: Cell, version: Option<nat>) {
    cell.Live? && (version.None? || version.value == cell.version)
  }

  function Update(setting: Setting, s: Server, read: Cell, patched: Patched): (Server, Err) {
    var reply, at := setting.replies(s.clock), Arrive(setting, s);
    match reply
    case Refused(fault, landed) =>
      (if landed && Admits(at.cell, patched.version) then Commit(at, read, patched.content, false) else at, {fault})
    case Served =>
      if at.cell.Absent? then (at, {NotFound})
      else if !Admits(at.cell, patched.version) then (at, {Conflict})
      else (Commit(at, read, patched.content, true), {})
  }

  /** Get, patch, update. */
  function ReadModifyWrite(setting: Setting, p: Patches, s: Server): (Server, Err) {
    var reply, at := setting.replies(s.clock), Arrive(setting, s);
    if reply.Refused? then (at, {reply.fault})
    else match at.cell
      case Absent => (at, {NotFound})
      case Live(v, c) =>
        match p(v, c)
        case None => (at, {NotPatched})
        case Some(patched) => Update(setting, at, at.cell, patched)
  }

  // ---- the two retries ----

  /** Again while it conflicts, at most so many times. */
  function OnConflict(setting: Setting, p: Patches, s: Server, steps: nat): (Server, Err)
    decreases steps
  {
    var (s', e) := ReadModifyWrite(setting, p, s);
    if Conflict in e && steps > 1 then OnConflict(setting, p, s', steps - 1) else (s', e)
  }

  /** Again on any error, at most so many times. */
  function OnAny(setting: Setting, p: Patches, s: Server, attempts: nat): (Server, Err)
    decreases attempts
  {
    var (s', e) := OnConflict(setting, p, s, Lifecycle.DefaultSteps);
    if e != {} && attempts > 1 then OnAny(setting, p, s', attempts - 1) else (s', e)
  }

  function Patch(setting: Setting, p: Patches, s: Server, configured: int): (Server, Err) {
    OnAny(setting, p, s, Lifecycle.Attempts(configured))
  }

  // ---- as written ----

  class LiveObject {
    const setting: Setting
    var cell: Cell
    var counter: nat
    var clock: nat
    var own: seq<OwnWrite>

    constructor (setting: Setting, cell: Cell, counter: nat)
      ensures this.setting == setting && State() == Server(cell, counter, 0, [])
    {
      this.setting := setting;
      this.cell, this.counter := cell, counter;
      clock, own := 0, [];
    }

    function State(): Server
      reads this
    {
      Server(cell, counter, clock, own)
    }

    /** The other writers' turn. */
    method LetOthersWrite()
      modifies this
      ensures State() == Arrive(setting, old(State()))
    {
      var ws := setting.others(clock);
      ghost var start := State();
      for n := 0 to |ws|
        invariant State() == Interfere(start, ws[..n]) && clock == old(clock)
      {
        assert ws[..n + 1][..n] == ws[..n];
        counter := counter + 1;
        cell := match ws[n] case Put(c) => Live(counter, c) case Remove => Absent;
      }
      assert ws[..|ws|] == ws;
      clock := clock + 1;
    }

    method UpdateTo(read: Cell, patched: Patched) returns (err: Err)
      modifies this
      ensures (State(), err) == Update(setting, old(State()), read, patched)
    {
      var reply := setting.replies(clock);
      LetOthersWrite();
      if reply.Served? && cell.Absent? {
        return {NotFound};
      }
      var admitted := Admits(cell, patched.version);
      if reply.Served? && !admitted {
        return {Conflict};
      }
      if admitted && (reply.Served? || reply.landed) {
        own := own + [OwnWrite(read, cell, patched.content, reply.Served?)];
        counter := counter + 1;
        cell := Live(counter, patched.content);
      }
      return if reply.Served? then {} else {reply.fault};
    }

    method PatchOnce(p: Patches) returns (err: Err)
      modifies this
      ensures (State(), err) == ReadModifyWrite(setting, p, old(State()))
    {
      var reply := setting.replies(clock);
      LetOthersWrite();
      if reply.Refused? {
        return {reply.fault};
      }
      if cell.Absent? {
        return {NotFound};
      }
      var live := cell;
      var patched := p(live.version, live.content);
      if patched.None? {
        return {NotPatched};
      }
      err := UpdateTo(live, patched.value);
    }

    method PatchOnConflict(p: Patches) returns (err: Err)
      modifies this
      ensures (State(), err) == OnConflict(setting, p, old(State()), Lifecycle.DefaultSteps)
    {
      hide ReadModifyWrite;
      ghost var start := State();
      var steps := Lifecycle.DefaultSteps;
      err := PatchOnce(p);
      while Conflict in err && steps > 1
        invariant steps >= 1
        invariant OnConflict(setting, p, start, Lifecycle.DefaultSteps)
               == if Conflict in err && steps > 1 then OnConflict(setting, p, State(), steps - 1) else (State(), err)
      {
        steps := steps - 1;
        err := PatchOnce(p);
      }
    }

    method PatchLive(p: Patches, configured: int) returns (err: Err)
      modifies this
      ensures (State(), err) == Patch(setting, p, old(State()), configured)
    {
      hide OnConflict;
      ghost var start := State();
      var attempts := Lifecycle.Attempts(configured);
      ghost var all := attempts;
      err := PatchOnConflict(p);
      while err != {} && attempts > 1
        decreases attempts
        invariant attempts >= 1
        invariant OnAny(setting, p, start, all)
               == if err != {} && attempts > 1 then OnAny(setting, p, State(), attempts - 1) else (State(), err)
      {
        attempts := attempts - 1;
        err := PatchOnConflict(p);
      }
    }
  }

  // ---- interference never reuses a version ----

  lemma {:induction false} OthersTakeFreshVersions(s: Server, ws: seq<Write>)
    requires WellFormed(s)
    ensures WellFormed(Interfere(s, ws)) && Interfere(s, ws).own == s.own
    ensures Interfere(s, ws).counter == s.counter + |ws| && Interfere(s, ws).clock == s.clock
    ensures ws != [] && Interfere(s, ws).cell.Live? ==> Interfere(s, ws).cell.version > s.counter
  {
    if ws != [] {
      OthersTakeFreshVersions(s, ws[..|ws| - 1]);
    }
  }

  /** The same version later means the same state. */
  lemma SameVersionSameState(setting: Setting, s: Server)
    requires WellFormed(s)
    ensures var at := Arrive(setting, s);
            && WellFormed(at) && at.own == s.own && at.counter >= s.counter
            && (s.cell.Live? && at.cell.Live? && at.cell.version <= s.cell.version ==> at.cell == s.cell)
  {
    OthersTakeFreshVersions(s, setting.others(s.clock));
  }

  // ---- no lost updates ----

  /** The write replaced exactly the state the patch was applied to. */
  predicate Exact(p: Patches, w: OwnWrite) {
    && w.read == w.replaced && w.read.Live?
    && p(w.read.version, w.read.content).Some?
    && p(w.read.version, w.read.content).value.content == w.written
  }

  predicate AllExact(p: Patches, ws: seq<OwnWrite>) {
    forall i :: 0 <= i < |ws| ==> Exact(p, ws[i])
  }

  /** The patch list neither clears the version nor raises it. */
  ghost predicate KeepsVersion(p: Patches) {
    forall v, c :: p(v, c).Some? ==> p(v, c).value.version.Some? && p(v, c).value.version.value <= v
  }

  function Acknowledged(ws: seq<OwnWrite>): nat {
    if ws == [] then 0
    else Acknowledged(ws[..|ws| - 1]) + if ws[|ws| - 1].acknowledged then 1 else 0
  }

  /** One more acknowledged write exactly if there is no error, and no other write if
      refusals have no effect. */
  ghost predicate Wrote(s: Server, s': Server, e: Err, sure: bool) {
    && s.own <= s'.own
    && Acknowledged(s'.own) == Acknowledged(s.own) + (if e == {} then 1 else 0)
    && (sure ==> |s'.own| == |s.own| + if e == {} then 1 else 0)
  }

  /** The patch list succeeded on the state that was read, and gave what was written. */
  predicate Computed(p: Patches, w: OwnWrite) {
    && w.read.Live?
    && p(w.read.version, w.read.content).Some?
    && p(w.read.version, w.read.content).value.content == w.written
  }

  predicate AllComputed(p: Patches, ws: seq<OwnWrite>) {
    forall i :: 0 <= i < |ws| ==> Computed(p, ws[i])
  }

  lemma AcknowledgedSnoc(ws: seq<OwnWrite>, w: OwnWrite)
    ensures Acknowledged(ws + [w]) == Acknowledged(ws) + if w.acknowledged then 1 else 0
  {
    assert (ws + [w])[..|ws|] == ws;
  }

  lemma UpdateWrites(setting: Setting, s: Server, read: Cell, patched: Patched)
    requires WellFormed(s)
    ensures var (s', e) := Update(setting, s, read, patched);
            WellFormed(s') && Wrote(s, s', e, RefusedHasNoEffect(setting))
  {
    hide Acknowledged;
    SameVersionSameState(setting, s);
    var at, reply := Arrive(setting, s), setting.replies(s.clock);
    hide Arrive;
    AcknowledgedSnoc(s.own, OwnWrite(read, at.cell, patched.content, reply.Served?));
    assert RefusedHasNoEffect(setting) && reply.Refused? ==> !reply.landed;
  }

  lemma AttemptWrites(setting: Setting, p: Patches, s: Server)
    requires WellFormed(s)
    ensures var (s', e) := ReadModifyWrite(setting, p, s);
            WellFormed(s') && Wrote(s, s', e, RefusedHasNoEffect(setting))
  {
    hide Acknowledged;
    hide Update;
    hide RefusedHasNoEffect;
    SameVersionSameState(setting, s);
    var at := Arrive(setting, s);
    if at.cell.Live? && p(at.cell.version, at.cell.content).Some? {
      UpdateWrites(setting, at, at.cell, p(at.cell.version, at.cell.content).value);
    }
  }

  lemma AttemptComputes(setting: Setting, p: Patches, s: Server)
    requires WellFormed(s) && AllComputed(p, s.own)
    ensures AllComputed(p, ReadModifyWrite(setting, p, s).0.own)
  {
    SameVersionSameState(setting, s);
    var at := Arrive(setting, s);
    SameVersionSameState(setting, at);
    hide Arrive;
  }

  lemma AttemptExact(setting: Setting, p: Patches, s: Server)
    requires WellFormed(s) && KeepsVersion(p) && AllExact(p, s.own)
    ensures AllExact(p, ReadModifyWrite(setting, p, s).0.own)
  {
    SameVersionSameState(setting, s);
    var at := Arrive(setting, s);
    SameVersionSameState(setting, at);
    hide Arrive;
  }

  // ---- over the whole call ----

  lemma {:induction false} ConflictExact(setting: Setting, p: Patches, s: Server, steps: nat)
    requires WellFormed(s) && KeepsVersion(p) && AllExact(p, s.own)
    ensures var s' := OnConflict(setting, p, s, steps).0; WellFormed(s') && AllExact(p, s'.own)
    decreases steps
  {
    hide ReadModifyWrite;
    hide AllExact;
    hide KeepsVersion;
    AttemptWrites(setting, p, s);
    AttemptExact(setting, p, s);
    var (s', e) := ReadModifyWrite(setting, p, s);
    if Conflict in e && steps > 1 {
      ConflictExact(setting, p, s', steps - 1);
    }
  }

  lemma {:induction false} AnyExact(setting: Setting, p: Patches, s: Server, attempts: nat)
    requires WellFormed(s) && KeepsVersion(p) && AllExact(p, s.own)
    ensures AllExact(p, OnAny(setting, p, s, attempts).0.own)
    decreases attempts
  {
    hide OnConflict;
    hide AllExact;
    hide KeepsVersion;
    ConflictExact(setting, p, s, Lifecycle.DefaultSteps);
    var (s', e) := OnConflict(setting, p, s, Lifecycle.DefaultSteps);
    if e != {} && attempts > 1 {
      AnyExact(setting, p, s', attempts - 1);
    }
  }

  lemma {:induction false} ConflictWrites(setting: Setting, p: Patches, s: Server, steps: nat)
    requires WellFormed(s)
    ensures var (s', e) := OnConflict(setting, p, s, steps);
            WellFormed(s') && Wrote(s, s', e, RefusedHasNoEffect(setting))
    decreases steps
  {
    hide ReadModifyWrite;
    hide RefusedHasNoEffect;
    hide Acknowledged;
    AttemptWrites(setting, p, s);
    var (s', e) := ReadModifyWrite(setting, p, s);
    if Conflict in e && steps > 1 {
      ConflictWrites(setting, p, s', steps - 1);
    }
  }

  lemma {:induction false} AnyWrites(setting: Setting, p: Patches, s: Server, attempts: nat)
    requires WellFormed(s)
    ensures var (s', e) := OnAny(setting, p, s, attempts); Wrote(s, s', e, RefusedHasNoEffect(setting))
    decreases attempts
  {
    hide OnConflict;
    hide RefusedHasNoEffect;
    hide Acknowledged;
    ConflictWrites(setting, p, s, Lifecycle.DefaultSteps);
    var (s', e) := OnConflict(setting, p, s, Lifecycle.DefaultSteps);
    if e != {} && attempts > 1 {
      AnyWrites(setting, p, s', attempts - 1);
    }
  }

  lemma {:induction false} ConflictComputes(setting: Setting, p: Patches, s: Server, steps: nat)
    requires WellFormed(s) && AllComputed(p, s.own)
    ensures AllComputed(p, OnConflict(setting, p, s, steps).0.own)
    decreases steps
  {
    hide ReadModifyWrite;
    hide AllComputed;
    AttemptWrites(setting, p, s);
    AttemptComputes(setting, p, s);
    var (s', e) := ReadModifyWrite(setting, p, s);
    if Conflict in e && steps > 1 {
      ConflictComputes(setting, p, s', steps - 1);
    }
  }

  lemma {:induction false} AnyComputes(setting: Setting, p: Patches, s: Server, attempts: nat)
    requires WellFormed(s) && AllComputed(p, s.own)
    ensures AllComputed(p, OnAny(setting, p, s, attempts).0.own)
    decreases attempts
  {
    hide OnConflict;
    hide AllComputed;
    ConflictWrites(setting, p, s, Lifecycle.DefaultSteps);
    ConflictComputes(setting, p, s, Lifecycle.DefaultSteps);
    var (s', e) := OnConflict(setting, p, s, Lifecycle.DefaultSteps);
    if e != {} && attempts > 1 {
      AnyComputes(setting, p, s', attempts - 1);
    }
  }

  /** For any patch list, any other writers and any failures: a nil result means exactly
      one acknowledged write and an error means none; if refused calls have no effect
      there is no other write either. */
  lemma PatchWritesOnceIffNil(setting: Setting, p: Patches, s: Server, configured: int)
    requires WellFormed(s) && s.own == []
    ensures var (s', e) := Patch(setting, p, s, configured);
            && Acknowledged(s'.own) == (if e == {} then 1 else 0)
            && (RefusedHasNoEffect(setting) ==> |s'.own| == if e == {} then 1 else 0)
  {
    hide OnAny;
    hide RefusedHasNoEffect;
    AnyWrites(setting, p, s, Lifecycle.Attempts(configured));
  }

  /** Nothing is ever written from a state on which the patch list fails: every write
      is what the list made of the state that attempt read. */
  lemma FailingPatchWritesNothing(setting: Setting, p: Patches, s: Server, configured: int)
    requires WellFormed(s) && s.own == []
    ensures AllComputed(p, Patch(setting, p, s, configured).0.own)
  {
    hide OnAny;
    AnyComputes(setting, p, s, Lifecycle.Attempts(configured));
  }

  /** An attempt on whose state the list fails ends there, with that error. */
  lemma FailingAttemptEnds(setting: Setting, p: Patches, s: Server)
    requires WellFormed(s) && setting.replies(s.clock).Served?
    requires var cell := Arrive(setting, s).cell; cell.Live? && p(cell.version, cell.content).None?
    ensures ReadModifyWrite(setting, p, s).1 == {NotPatched}
    ensures ReadModifyWrite(setting, p, s).0.own == s.own && ReadModifyWrite(setting, p, s).0.clock == s.clock + 1
  {
    SameVersionSameState(setting, s);
  }

  /** No update is lost, whatever the other writers do and however calls fail. */
  ghost predicate NoLostUpdates(p: Patches) {
    forall setting, s, configured :: WellFormed(s) && s.own == [] ==>
      AllExact(p, Patch(setting, p, s, configured).0.own)
  }

  /** One more writer than the patch expects: the version it raised to is taken. */
  function Rival(n: nat): Setting {
    Setting(t => if t == 1 then seq(n, _ => Put("rival")) else [], _ => Served)
  }

  lemma {:induction false} RivalWrites(s: Server, n: nat)
    requires n >= 1
    ensures Interfere(s, seq(n, _ => Put("rival")))
         == s.(counter := s.counter + n, cell := Live(s.counter + n, "rival"))
    decreases n
  {
    var ws := seq(n, _ => Put("rival"));
    assert ws[..|ws| - 1] == seq(n - 1, _ => Put("rival"));
    if n > 1 {
      RivalWrites(s, n - 1);
    }
  }

  /** How many rival writes make an update with this version pass. */
  function Overtaking(v: nat, version: Option<nat>): nat {
    if version.Some? && version.value > v then version.value - v else 1
  }

  /** A patch list that clears or raises the version overwrites a rival's write. */
  lemma ForgedVersionLosesUpdate(p: Patches, v: nat, c: string)
    requires p(v, c).Some?
    requires p(v, c).value.version.Some? ==> p(v, c).value.version.value > v
    ensures var s' := Patch(Rival(Overtaking(v, p(v, c).value.version)), p, Server(Live(v, c), v, 0, []), 1).0;
            |s'.own| == 1 && s'.own[0].read == Live(v, c)
            && s'.own[0].replaced.Live? && s'.own[0].replaced.content == "rival"
            && s'.own[0].replaced.version > v
  {
    var n := Overtaking(v, p(v, c).value.version);
    var s := Server(Live(v, c), v, 0, []);
    var setting := Rival(n);
    var at := Arrive(setting, s);
    assert at == s.(clock := 1);
    RivalWrites(at, n);
    assert Arrive(setting, at).cell == Live(v + n, "rival");
    var (s', e) := ReadModifyWrite(setting, p, s);
    assert e == {};
  }

  /** Exactly the patch lists that neither clear nor raise the resource version are
      free of lost updates. */
  lemma NoLostUpdatesIff(p: Patches)
    ensures NoLostUpdates(p) <==> KeepsVersion(p)
  {
    if KeepsVersion(p) {
      forall setting, s, configured | WellFormed(s) && s.own == []
        ensures AllExact(p, Patch(setting, p, s, configured).0.own)
      {
        AnyExact(setting, p, s, Lifecycle.Attempts(configured));
      }
    } else {
      var v, c :| p(v, c).Some? && !(p(v, c).value.version.Some? && p(v, c).value.version.value <= v);
      ForgedVersionLosesUpdate(p, v, c);
      var setting := Rival(Overtaking(v, p(v, c).value.version));
      var s := Server(Live(v, c), v, 0, []);
      var own := Patch(setting, p, s, 1).0.own;
      assert WellFormed(s) && !Exact(p, own[0]);
    }
  }
}
