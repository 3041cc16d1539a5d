/** The binding-layout builder of `gen_pipeline`: two parallel entry lists,
    the bind-group layout entries and the bind-group entries, each built
    from an option chain in the role order Uniform, Scratchpad, Input,
    Staging and then renumbered in place from 0. */
module Layout {
  import opened Wrappers
  import opened Gpu

  /** The order every stage's shader text assumes for its bindings. */
  const RoleOrder: seq<Role> := [Uniform, Scratchpad, Input, Staging]

  /** Whether a buffer of role `r` is bound. Input and Staging always are;
      Output is never bound (it is only a copy target). */
  predicate Bound(r: Role, hasUniform: bool, hasScratchpad: bool)
  {
    match r
    case Uniform => hasUniform
    case Scratchpad => hasScratchpad
    case Input => true
    case Staging => true
    case Output => false
  }

  /** The roles of `roles` that are bound, in their order. */
  function KeepBound(roles: seq<Role>, hasUniform: bool, hasScratchpad: bool): (kept: seq<Role>)
    ensures |kept| <= |roles|
  {
    if roles == [] then []
    else
      (if Bound(roles[0], hasUniform, hasScratchpad) then [roles[0]] else [])
      + KeepBound(roles[1..], hasUniform, hasScratchpad)
  }

  /** Reference definition of the slot list: the fixed role order,
      filtered by presence. */
  function SlotRoles(hasUniform: bool, hasScratchpad: bool): seq<Role>
  {
    KeepBound(RoleOrder, hasUniform, hasScratchpad)
  }

  /** The binding type each bound role gets in the layout. */
  function BindingTypeOf(r: Role): BindingType
    requires r != Output
  {
    match r
    case Uniform => UniformBinding
    case Scratchpad => Storage(readOnly := false)
    case Input => Storage(readOnly := true)
    case Staging => Storage(readOnly := false)
  }

  /** The layout entries as collected, before renumbering (lib.rs:179-222). */
  function LayoutItems(hasUniform: bool, hasScratchpad: bool): seq<LayoutEntry>
  {
    OptionToSeq(if hasUniform then Some(Entry(0, UniformBinding)) else None)
    + OptionToSeq(if hasScratchpad then Some(Entry(0, Storage(readOnly := false))) else None)
    + OptionToSeq(Some(Entry(0, Storage(readOnly := true))))
    + OptionToSeq(Some(Entry(0, Storage(readOnly := false))))
  }

  /** The bind-group entries as collected, before renumbering (lib.rs:228-247). */
  function BindGroupItems(hasUniform: bool, hasScratchpad: bool): seq<BindGroupEntry>
  {
    OptionToSeq(if hasUniform then Some(Entry(0, Uniform)) else None)
    + OptionToSeq(if hasScratchpad then Some(Entry(0, Scratchpad)) else None)
    + OptionToSeq(Some(Entry(0, Input)))
    + OptionToSeq(Some(Entry(0, Staging)))
  }

  /** The entries renumbered from 0: position i holds binding i, so the
      bindings are dense, and keeps the payload that was there. */
  function Renumbered<P>(s: seq<Entry<P>>): seq<Entry<P>>
  {
    seq(|s|, i requires 0 <= i < |s| => Entry(i, s[i].payload))
  }

  /** The in-place renumbering loop (lib.rs:223-226 and 248-251). */
  method Renumber<P>(a: array<Entry<P>>)
    modifies a
    ensures a[..] == Renumbered(old(a[..]))
  {
    for i := 0 to a.Length
      invariant forall k :: 0 <= k < i ==> a[k] == Entry(k, old(a[k]).payload)
      invariant forall k :: i <= k < a.Length ==> a[k] == old(a[k])
    {
      a[i] := a[i].(binding := i);
    }
  }

  /** The layout and the bind group a pipeline is built with. */
  function FinalLayout(hasUniform: bool, hasScratchpad: bool): seq<LayoutEntry>
  {
    Renumbered(LayoutItems(hasUniform, hasScratchpad))
  }

  function FinalBindGroup(hasUniform: bool, hasScratchpad: bool): seq<BindGroupEntry>
  {
    Renumbered(BindGroupItems(hasUniform, hasScratchpad))
  }

  function Count(b: bool): nat { if b then 1 else 0 }

  /** Closed form of the slot a bound role occupies: each present optional
      buffer shifts the later ones by one. */
  function SlotIndex(r: Role, hasUniform: bool, hasScratchpad: bool): nat
    requires Bound(r, hasUniform, hasScratchpad)
  {
    match r
    case Uniform => 0
    case Scratchpad => Count(hasUniform)
    case Input => Count(hasUniform) + Count(hasScratchpad)
    case Staging => Count(hasUniform) + Count(hasScratchpad) + 1
  }

  function OptionalRole(present: bool, r: Role): seq<Role>
  {
    if present then [r] else []
  }

  /** The filtered role order written out. */
  lemma SlotRolesClosedForm(hasUniform: bool, hasScratchpad: bool)
    ensures SlotRoles(hasUniform, hasScratchpad) ==
      OptionalRole(hasUniform, Uniform) + OptionalRole(hasScratchpad, Scratchpad) + [Input, Staging]
  {
    var tail := [Input, Staging];
    calc {
      KeepBound(tail, hasUniform, hasScratchpad);
      [Input] + KeepBound([Staging], hasUniform, hasScratchpad);
      { assert [Staging][1..] == []; }
      tail;
    }
    assert RoleOrder[1..][1..] == tail;
    assert KeepBound(RoleOrder[1..], hasUniform, hasScratchpad) == OptionalRole(hasScratchpad, Scratchpad) + tail;
  }

  /** The bind-group option chain binds exactly the roles of `SlotRoles`,
      in order. */
  lemma BindGroupItemsFollowRoleOrder(hasUniform: bool, hasScratchpad: bool)
    ensures |BindGroupItems(hasUniform, hasScratchpad)| == |SlotRoles(hasUniform, hasScratchpad)|
    ensures forall i :: 0 <= i < |SlotRoles(hasUniform, hasScratchpad)| ==>
      BindGroupItems(hasUniform, hasScratchpad)[i].payload == SlotRoles(hasUniform, hasScratchpad)[i]
  {
    SlotRolesClosedForm(hasUniform, hasScratchpad);
    var g, gs, gi, gst := Entry(0, Uniform), Entry(0, Scratchpad), Entry(0, Input), Entry(0, Staging);
    if hasUniform && hasScratchpad {
      assert BindGroupItems(hasUniform, hasScratchpad) == [g, gs, gi, gst];
    } else if hasUniform {
      assert BindGroupItems(hasUniform, hasScratchpad) == [g, gi, gst];
    } else if hasScratchpad {
      assert BindGroupItems(hasUniform, hasScratchpad) == [gs, gi, gst];
    } else {
      assert BindGroupItems(hasUniform, hasScratchpad) == [gi, gst];
    }
  }

  /** The layout option chain gives the roles of `SlotRoles`, in order,
      their binding types. */
  lemma LayoutItemsFollowRoleOrder(hasUniform: bool, hasScratchpad: bool)
    ensures |LayoutItems(hasUniform, hasScratchpad)| == |SlotRoles(hasUniform, hasScratchpad)|
    ensures forall i :: 0 <= i < |SlotRoles(hasUniform, hasScratchpad)| ==>
      SlotRoles(hasUniform, hasScratchpad)[i] != Output &&
      LayoutItems(hasUniform, hasScratchpad)[i].payload == BindingTypeOf(SlotRoles(hasUniform, hasScratchpad)[i])
  {
    SlotRolesClosedForm(hasUniform, hasScratchpad);
    var u := Entry(0, UniformBinding);
    var sc := Entry(0, Storage(readOnly := false));
    var i := Entry(0, Storage(readOnly := true));
    var st := Entry(0, Storage(readOnly := false));
    if hasUniform && hasScratchpad {
      assert SlotRoles(hasUniform, hasScratchpad) == [Uniform, Scratchpad, Input, Staging];
      assert LayoutItems(hasUniform, hasScratchpad) == [u, sc, i, st];
    } else if hasUniform {
      assert SlotRoles(hasUniform, hasScratchpad) == [Uniform, Input, Staging];
      assert LayoutItems(hasUniform, hasScratchpad) == [u, i, st];
    } else if hasScratchpad {
      assert SlotRoles(hasUniform, hasScratchpad) == [Scratchpad, Input, Staging];
      assert LayoutItems(hasUniform, hasScratchpad) == [sc, i, st];
    } else {
      assert SlotRoles(hasUniform, hasScratchpad) == [Input, Staging];
      assert LayoutItems(hasUniform, hasScratchpad) == [i, st];
    }
  }

  /** Slot by slot, the renumbered layout and bind group agree: same length,
      binding i at position i in both, and the layout entry has the binding
      type of the buffer the bind group puts there. */
  lemma LayoutAgreesWithBindGroup(hasUniform: bool, hasScratchpad: bool)
    ensures |FinalLayout(hasUniform, hasScratchpad)| == |FinalBindGroup(hasUniform, hasScratchpad)|
            == |SlotRoles(hasUniform, hasScratchpad)|
    ensures forall i :: 0 <= i < |FinalBindGroup(hasUniform, hasScratchpad)| ==>
      FinalLayout(hasUniform, hasScratchpad)[i].binding == i &&
      FinalBindGroup(hasUniform, hasScratchpad)[i].binding == i &&
      FinalBindGroup(hasUniform, hasScratchpad)[i].payload == SlotRoles(hasUniform, hasScratchpad)[i] &&
      FinalBindGroup(hasUniform, hasScratchpad)[i].payload != Output &&
      FinalLayout(hasUniform, hasScratchpad)[i].payload == BindingTypeOf(FinalBindGroup(hasUniform, hasScratchpad)[i].payload)
  {
    BindGroupItemsFollowRoleOrder(hasUniform, hasScratchpad);
    LayoutItemsFollowRoleOrder(hasUniform, hasScratchpad);
    var roles := SlotRoles(hasUniform, hasScratchpad);
    var layout, group := LayoutItems(hasUniform, hasScratchpad), BindGroupItems(hasUniform, hasScratchpad);
    var finalLayout, finalGroup := Renumbered(layout), Renumbered(group);
    forall i | 0 <= i < |finalGroup|
      ensures finalLayout[i].binding == i && finalGroup[i].binding == i
      ensures finalGroup[i].payload == roles[i] && roles[i] != Output
      ensures finalLayout[i].payload == BindingTypeOf(roles[i])
    {
      assert finalGroup[i].payload == group[i].payload;
      assert finalLayout[i].payload == layout[i].payload;
    }
  }

  /** Two to four slots: Input and Staging, plus one per optional buffer. */
  lemma SlotCount(hasUniform: bool, hasScratchpad: bool)
    ensures |FinalLayout(hasUniform, hasScratchpad)| == 2 + Count(hasUniform) + Count(hasScratchpad)
    ensures 2 <= |FinalBindGroup(hasUniform, hasScratchpad)| <= 4
  {
    BindGroupItemsFollowRoleOrder(hasUniform, hasScratchpad);
    LayoutItemsFollowRoleOrder(hasUniform, hasScratchpad);
  }

  /** Every bound role sits at exactly one slot, the one `SlotIndex` gives
      (with `LayoutAgreesWithBindGroup`, that is where the bind group binds
      it); Input and Staging are always the last two, Staging right after
      Input, whichever optional buffers are present. */
  lemma SlotOfRole(r: Role, hasUniform: bool, hasScratchpad: bool)
    requires Bound(r, hasUniform, hasScratchpad)
    ensures SlotIndex(r, hasUniform, hasScratchpad) < |SlotRoles(hasUniform, hasScratchpad)|
    ensures SlotRoles(hasUniform, hasScratchpad)[SlotIndex(r, hasUniform, hasScratchpad)] == r
    ensures forall i :: (0 <= i < |SlotRoles(hasUniform, hasScratchpad)| &&
      SlotRoles(hasUniform, hasScratchpad)[i] == r) ==> i == SlotIndex(r, hasUniform, hasScratchpad)
    ensures SlotIndex(Input, hasUniform, hasScratchpad) == |SlotRoles(hasUniform, hasScratchpad)| - 2
    ensures SlotIndex(Staging, hasUniform, hasScratchpad) == SlotIndex(Input, hasUniform, hasScratchpad) + 1
  {
    SlotRolesClosedForm(hasUniform, hasScratchpad);
    var roles := SlotRoles(hasUniform, hasScratchpad);
    if hasUniform && hasScratchpad {
      assert roles == [Uniform, Scratchpad, Input, Staging];
    } else if hasUniform {
      assert roles == [Uniform, Input, Staging];
    } else if hasScratchpad {
      assert roles == [Scratchpad, Input, Staging];
    } else {
      assert roles == [Input, Staging];
    }
  }
}
