/**
  The widget's construction options: the defaults, what a caller may pass,
  and the two-level merge of the two (the nested `controls` object is merged
  key by key, independently of the top level).
*/
module ScrollOptions {
  import opened Wrappers

  /** Identity of a DOM element of the host page (a control button, an event target). */
  type ElemId = nat

  /** The merged `controls` sub-object. */
  datatype Controls = Controls(
    enabled: bool,
    left: Option<ElemId>,
    right: Option<ElemId>,
    pace: nat)

  /** The merged options every instance reads. */
  datatype Options = Options(
    outerClass: string,
    innerClass: string,
    leftControlClass: string,
    rightControlClass: string,
    animatedClass: string,
    deltaDivider: real,
    wheelInterval: int,
    controls: Controls)

  /** The `controls` object a caller passes: every key may be absent. */
  datatype UserControls = UserControls(
    enabled: Option<bool>,
    left: Option<ElemId>,
    right: Option<ElemId>,
    pace: Option<nat>)

  /** The options object a caller passes: every key may be absent. */
  datatype UserOptions = UserOptions(
    outerClass: Option<string>,
    innerClass: Option<string>,
    leftControlClass: Option<string>,
    rightControlClass: Option<string>,
    animatedClass: Option<string>,
    deltaDivider: Option<real>,
    wheelInterval: Option<int>,
    controls: Option<UserControls>)

  /** The class-level defaults. */
  const Defaults: Options := Options(
    "s-outer", "s-inner", "s-control-left", "s-control-right", "s-animated",
    0.5, 20, Controls(false, None, None, 100))

  /** An options object that gives no key at all. */
  const NoOptions: UserOptions := UserOptions(None, None, None, None, None, None, None, None)

  /** Merging fails only when no options object is passed: reading its `controls` key throws. */
  datatype MergeError = OptionsUndefined

  /** Object-spread semantics for one key: a key the caller gives wins, an absent key keeps `base`. */
  predicate Wins<T(==)>(given: Option<T>, base: T, merged: T) {
    && (given.Some? ==> merged == given.value)
    && (given.None? ==> merged == base)
  }

  /** Each key the caller gives wins over the base; an absent key keeps the base value. */
  function MergeControls(base: Controls, given: Option<UserControls>): (r: Controls)
    ensures given.None? ==> r == base
    ensures given.Some? ==>
      && Wins(given.value.enabled, base.enabled, r.enabled)
      && (given.value.left.Some? ==> r.left == given.value.left)
      && (given.value.left.None? ==> r.left == base.left)
      && (given.value.right.Some? ==> r.right == given.value.right)
      && (given.value.right.None? ==> r.right == base.right)
      && Wins(given.value.pace, base.pace, r.pace)
  {
    match given
    case None => base
    case Some(u) =>
      Controls(
        u.enabled.GetOr(base.enabled),
        if u.left.Some? then u.left else base.left,
        if u.right.Some? then u.right else base.right,
        u.pace.GetOr(base.pace))
  }

  /** The constructor's merge of `Defaults` with the caller's options. */
  function Merge(given: Option<UserOptions>): (r: Result<Options, MergeError>)
    ensures given.None? <==> r.Failure?
    ensures given.Some? ==>
      && (given.value.controls.None? ==> r.value.controls == Defaults.controls)
      && r.value.controls.left == (if given.value.controls.Some? then given.value.controls.value.left else None)
      && r.value.controls.right == (if given.value.controls.Some? then given.value.controls.value.right else None)
    ensures given.Some? ==>
      && Wins(given.value.outerClass, Defaults.outerClass, r.value.outerClass)
      && Wins(given.value.innerClass, Defaults.innerClass, r.value.innerClass)
      && Wins(given.value.leftControlClass, Defaults.leftControlClass, r.value.leftControlClass)
      && Wins(given.value.rightControlClass, Defaults.rightControlClass, r.value.rightControlClass)
      && Wins(given.value.animatedClass, Defaults.animatedClass, r.value.animatedClass)
      && Wins(given.value.deltaDivider, Defaults.deltaDivider, r.value.deltaDivider)
      && Wins(given.value.wheelInterval, Defaults.wheelInterval, r.value.wheelInterval)
    ensures given.Some? && given.value.controls.Some? ==>
      && Wins(given.value.controls.value.enabled, Defaults.controls.enabled, r.value.controls.enabled)
      && Wins(given.value.controls.value.pace, Defaults.controls.pace, r.value.controls.pace)
  {
    match given
    case None => Failure(OptionsUndefined)
    case Some(u) =>
      Success(Options(
        u.outerClass.GetOr(Defaults.outerClass),
        u.innerClass.GetOr(Defaults.innerClass),
        u.leftControlClass.GetOr(Defaults.leftControlClass),
        u.rightControlClass.GetOr(Defaults.rightControlClass),
        u.animatedClass.GetOr(Defaults.animatedClass),
        u.deltaDivider.GetOr(Defaults.deltaDivider),
        u.wheelInterval.GetOr(Defaults.wheelInterval),
        MergeControls(Defaults.controls, u.controls)))
  }

  /** The options object that spells out every key of `o`. */
  function Spell(o: Options): UserOptions {
    UserOptions(
      Some(o.outerClass), Some(o.innerClass), Some(o.leftControlClass),
      Some(o.rightControlClass), Some(o.animatedClass), Some(o.deltaDivider),
      Some(o.wheelInterval),
      Some(UserControls(Some(o.controls.enabled), o.controls.left, o.controls.right, Some(o.controls.pace))))
  }

  /** An empty options object yields exactly the defaults. */
  lemma MergeEmptyIsDefaults()
    ensures Merge(Some(NoOptions)) == Success(Defaults)
  {
  }

  /** Merging is a round trip: spelling out merged options and merging again changes nothing. */
  lemma MergeSpelledRoundTrip(o: Options)
    ensures Merge(Some(Spell(o))) == Success(o)
  {
  }

  /**
    The nested controls object merges on its own: a caller who passes only
    `controls.enabled` still gets the default pace of 100.
  */
  lemma ControlsMergeIndependently(u: UserOptions)
    requires u.controls.Some? && u.controls.value.pace.None?
    ensures Merge(Some(u)).Success? && Merge(Some(u)).value.controls.pace == 100
  {
  }
}
