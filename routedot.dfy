/** A placed route point (src/componenets/POC/RouteDot.tsx). In "edit" mode
    the dot is wrapped in a translate gizmo; each render's effect subscribes a
    handler to the gizmo's "dragging-changed" event that switches camera
    orbiting off while a drag is in progress and back on when it ends, and on
    the end commits the dot's position with the dot's id. A context-menu
    event on the dot asks for its removal; pointer enter and leave set the
    hover highlight. */
module Dot {
  import opened Optional
  import opened Three
  import opened Page
  import opened Sequences

  /** One subscribed handler `f`: the closure of one effect run (numbered by
      `serial`), holding the id that render received. */
  datatype Listener = Listener(serial: nat, id: int)

  /** The arguments of one onTranslateEnd call. */
  datatype Commit = Commit(position: Vec3, id: int)

  /** The onTranslateEnd calls that one "dragging-changed" event makes when it
      reaches the listeners `ls` in order, with the dot at `pos`: none for a
      drag start or when there are no orbit controls, one per listener on a
      drag end. */
  function DragCommits(ls: seq<Listener>, value: bool, orbitPresent: bool, pos: Vec3): (cs: seq<Commit>)
    ensures |cs| == if value || !orbitPresent then 0 else |ls|
    ensures forall i :: 0 <= i < |cs| ==> cs[i] == Commit(pos, ls[i].id)
  {
    if value || !orbitPresent || ls == [] then []
    else [Commit(pos, ls[0].id)] + DragCommits(ls[1..], value, orbitPresent, pos)
  }

  /** The gizmo's "dragging-changed" listeners after a render, as the effect is
      written: the cleanup unsubscribes the previous handler from "translate",
      where it never was, so the old handler stays and the new one is added.
      Leaving "edit" unmounts the gizmo with its listeners; entering "edit"
      mounts a fresh one. */
  function AfterRenderAsWritten(ls: seq<Listener>, wasEdit: bool, isEdit: bool, f: Listener): (r: seq<Listener>)
    ensures !isEdit ==> r == []
    ensures isEdit ==> |r| == (if wasEdit then |ls| else 0) + 1 && r[|r| - 1] == f
    ensures isEdit && wasEdit ==> r[..|ls|] == ls
  {
    if !isEdit then []
    else (if wasEdit then ls else []) + [f]
  }

  /** `removeEventListener("dragging-changed", f)`: drop `f`; every other
      listener stays, as often as it was there and in the same order, and a
      list without `f` is left as it is. three.js removes the first
      occurrence only, but its `addEventListener` never adds a function that
      is already there, so a list holds `f` at most once and dropping every
      occurrence removes the same entry. */
  function Unsubscribe(ls: seq<Listener>, f: Listener): (r: seq<Listener>)
    ensures forall l :: l in r <==> l in ls && l != f
    ensures f !in ls ==> r == ls
    ensures IsSubsequence(r, ls)
    ensures forall g :: multiset(r)[g] == if g == f then 0 else multiset(ls)[g]
    decreases |ls|
  {
    if ls == [] then []
    else
      assert ls == [ls[0]] + ls[1..];
      var rest := Unsubscribe(ls[1..], f);
      if ls[0] == f then rest
      else
        assert ([ls[0]] + rest)[1..] == rest;
        [ls[0]] + rest
  }

  /** The listeners after a render when the cleanup unsubscribes the previous
      handler `prev` from "dragging-changed", the event it was added to: the
      new handler comes last, and before it stand, in their old order, the
      handlers the mounted gizmo held except the previous one. */
  function AfterRender(ls: seq<Listener>, wasEdit: bool, isEdit: bool, prev: Option<Listener>, f: Listener): (r: seq<Listener>)
    ensures !isEdit ==> r == []
    ensures isEdit ==> r != [] && r[|r| - 1] == f
    ensures isEdit ==> forall l :: l in r[..|r| - 1] <==> wasEdit && l in ls && (prev.Some? ==> l != prev.value)
    ensures isEdit && wasEdit ==> IsSubsequence(r[..|r| - 1], ls)
  {
    if !isEdit then []
    else
      var kept := if !wasEdit then [] else if prev.Some? then Unsubscribe(ls, prev.value) else ls;
      assert (kept + [f])[..|kept|] == kept;
      SubsequenceOfItself(ls);
      kept + [f]
  }

  /** The gizmo's listeners, as the effect is written, after a dot mounts in
      "edit" mode and renders |ids| times in that mode, render k receiving the
      id `ids[k]`. */
  function EditRendersAsWritten(ids: seq<int>): seq<Listener>
    decreases |ids|
  {
    if ids == [] then []
    else AfterRenderAsWritten(EditRendersAsWritten(ids[..|ids| - 1]), |ids| > 1, true, Listener(|ids| - 1, ids[|ids| - 1]))
  }

  /** As written, every render in "edit" mode leaves one more handler on the
      gizmo: after k renders there are k, one per render with that render's
      id, and a single drag end commits k times, once with each id. */
  lemma {:induction false} ListenersPileUpAsWritten(ids: seq<int>, pos: Vec3)
    ensures var ls := EditRendersAsWritten(ids);
      |ls| == |ids| && forall k :: 0 <= k < |ids| ==> ls[k] == Listener(k, ids[k])
    ensures DragCommits(EditRendersAsWritten(ids), false, true, pos)
         == seq(|ids|, k requires 0 <= k < |ids| => Commit(pos, ids[k]))
    decreases |ids|
  {
    if ids != [] {
      var front := ids[..|ids| - 1];
      ListenersPileUpAsWritten(front, pos);
      var ls := EditRendersAsWritten(ids);
      forall k | 0 <= k < |ids|
        ensures ls[k] == Listener(k, ids[k])
      {
        if k < |ids| - 1 {
          assert ls[k] == ls[..|front|][k];
        }
      }
    }
  }

  /** With the cleanup unsubscribing from the right event, however many renders
      there have been, the gizmo holds exactly the latest handler in "edit"
      mode and a drag end commits exactly once, with the latest id. */
  lemma {:induction false} AfterRenderKeepsOne(ls: seq<Listener>, wasEdit: bool, prev: Option<Listener>, f: Listener, pos: Vec3)
    requires wasEdit ==> prev.Some? && ls == [prev.value]
    ensures AfterRender(ls, wasEdit, true, prev, f) == [f]
    ensures DragCommits(AfterRender(ls, wasEdit, true, prev, f), false, true, pos) == [Commit(pos, f.id)]
  {
    if wasEdit {
      assert Unsubscribe(ls, prev.value) == [] + Unsubscribe([], prev.value);
    }
  }

  /** The RouteDot component's state: its props, the hover flag, the dot mesh,
      the orbit-controls ref and the listeners its effects have put on the gizmo. */
  class RouteDot {
    var id: int
    var mode: Mode
    var hovered: bool
    const dot: Object3D
    const orbit: OrbitControls?
    var listeners: seq<Listener>
    var registered: Option<Listener>
    var serial: nat

    /** In "edit" mode the gizmo holds exactly the handler of the latest
        effect run, which captured the current id; otherwise there is no
        gizmo and no handler. */
    ghost predicate Valid()
      reads this
    {
      (mode == Edit ==>
        registered.Some? && listeners == [registered.value] &&
        registered.value.id == id && registered.value.serial < serial) &&
      (mode != Edit ==> listeners == [] && registered == None)
    }

    /** The first render and its effect. */
    constructor (id: int, mode: Mode, dot: Object3D, orbit: OrbitControls?)
      ensures Valid()
      ensures this.id == id && this.mode == mode && this.dot == dot && this.orbit == orbit && !hovered
      ensures listeners == if mode == Edit then [Listener(0, id)] else []
    {
      this.id := id;
      this.mode := mode;
      this.dot := dot;
      this.orbit := orbit;
      hovered := false;
      if mode == Edit {
        listeners := [Listener(0, id)];
        registered := Some(Listener(0, id));
      } else {
        listeners := [];
        registered := None;
      }
      serial := 1;
    }

    /** A re-render with new props: the previous effect's cleanup runs, then
        the new effect subscribes a handler holding the new id. */
    method Render(newMode: Mode, newId: int)
      requires Valid()
      modifies this`mode, this`id, this`listeners, this`registered, this`serial
      ensures Valid()
      ensures mode == newMode && id == newId && serial == old(serial) + 1
      ensures listeners == AfterRender(old(listeners), old(mode) == Edit, newMode == Edit,
                                       old(registered), Listener(old(serial), newId))
      ensures listeners == if newMode == Edit then [Listener(old(serial), newId)] else []
    {
      var f := Listener(serial, newId);
      AfterRenderKeepsOne(listeners, mode == Edit, registered, f, dot.position);
      listeners := AfterRender(listeners, mode == Edit, newMode == Edit, registered, f);
      registered := if newMode == Edit then Some(f) else None;
      mode, id, serial := newMode, newId, serial + 1;
    }

    /** The handler `f` of one effect run: with orbit controls present, orbit
        is enabled exactly when no drag is in progress, and a drag end commits
        the dot's position with the id the handler holds. */
    method HandleDraggingChanged(l: Listener, value: bool) returns (commit: Option<Commit>)
      modifies Present(orbit)
      ensures orbit != null ==> orbit.enabled == !value
      ensures commit == if orbit != null && !value then Some(Commit(dot.position, l.id)) else None
    {
      commit := None;
      if orbit == null {
        return;
      }
      orbit.enabled := !value;
      if !value {
        commit := Some(Commit(dot.position, l.id));
      }
    }

    /** The gizmo dispatching "dragging-changed" to its listeners in order. */
    method DispatchDraggingChanged(value: bool) returns (commits: seq<Commit>)
      modifies Present(orbit)
      ensures commits == DragCommits(listeners, value, orbit != null, dot.position)
      ensures orbit != null && listeners != [] ==> orbit.enabled == !value
      ensures listeners == [] ==> unchanged(Present(orbit))
    {
      commits := [];
      var ls, pos, present := listeners, dot.position, orbit != null;
      var i := 0;
      while i < |ls|
        invariant 0 <= i <= |ls|
        invariant ls == listeners && pos == dot.position
        invariant commits == DragCommits(ls[..i], value, present, pos)
        invariant present && i > 0 ==> orbit.enabled == !value
        invariant i == 0 ==> unchanged(Present(orbit))
      {
        var c := HandleDraggingChanged(ls[i], value);
        if c.Some? {
          commits := commits + [c.value];
        }
        assert ls[..i + 1] == ls[..i] + [ls[i]];
        DragCommitsAppend(ls[..i], ls[i], value, present, pos);
        i := i + 1;
      }
      assert ls[..i] == ls;
    }

    /** A drag start switches orbiting off and commits nothing; a drag end
        switches it back on and commits the dot's position with this dot's id,
        exactly once. */
    method DragChanged(value: bool) returns (commits: seq<Commit>)
      requires Valid() && mode == Edit
      modifies Present(orbit)
      ensures orbit != null ==> orbit.enabled == !value
      ensures commits == if orbit != null && !value then [Commit(dot.position, id)] else []
    {
      commits := DispatchDraggingChanged(value);
    }

    /** handleRemove: ask for this dot's removal. */
    method HandleRemove() returns (removed: int)
      ensures removed == id
    {
      removed := id;
    }

    method HandlePointerEnter()
      modifies this`hovered
      ensures hovered
    {
      hovered := true;
    }

    method HandlePointerLeave()
      modifies this`hovered
      ensures !hovered
    {
      hovered := false;
    }
  }

  /** Dispatching to one more listener adds that listener's commits at the end. */
  lemma DragCommitsAppend(ls: seq<Listener>, l: Listener, value: bool, orbitPresent: bool, pos: Vec3)
    ensures DragCommits(ls + [l], value, orbitPresent, pos)
         == DragCommits(ls, value, orbitPresent, pos) + DragCommits([l], value, orbitPresent, pos)
  {
  }
}
