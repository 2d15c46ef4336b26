/**
 * The part of the host's game object that the mod writes: its group
 * membership, six behaviour flags and its scale, which the host keeps twice
 * per axis (the node scale behind setScaleX/setScaleY and the raw
 * m_scaleX/m_scaleY fields). ObjectState is the same record as a value, and
 * Applied is what applying one ObjectOptions does to it.
 */
module GameObjects {
  import opened Options

  /** A snapshot of the attributes of a game object that the mod reads or writes. */
  datatype ObjectState = ObjectState(
    objectID: int,
    groups: set<int>,
    isDontFade: bool,
    isDontEnter: bool,
    hasNoEffects: bool,
    isNoTouch: bool,
    hasNoParticles: bool,
    hasNoGlow: bool,
    nodeScaleX: real,
    nodeScaleY: real,
    scaleX: real,
    scaleY: real)

  /** The six flags in toggle order: dont-fade, dont-enter, no-effects, no-touch, no-particles, no-glow. */
  function Flags(s: ObjectState): Toggles {
    [s.isDontFade, s.isDontEnter, s.hasNoEffects, s.isNoTouch, s.hasNoParticles, s.hasNoGlow]
  }

  /** The three flags that the session settings write on every new object. */
  function WithSessionFlags(s: ObjectState, dontFade: bool, dontEnter: bool, noGlow: bool): ObjectState {
    s.(isDontFade := dontFade, isDontEnter := dontEnter, hasNoGlow := noGlow)
  }

  /**
   * Applying options: the object joins every listed group, takes the six
   * flags position by position, and both copies of each scale axis take the
   * configured value.
   */
  function Applied(s: ObjectState, o: ObjectOptions): ObjectState {
    s.(groups := s.groups + o.groups,
       isDontFade := o.toggles[0], isDontEnter := o.toggles[1], hasNoEffects := o.toggles[2],
       isNoTouch := o.toggles[3], hasNoParticles := o.toggles[4], hasNoGlow := o.toggles[5],
       nodeScaleX := o.scaleX, scaleX := o.scaleX,
       nodeScaleY := o.scaleY, scaleY := o.scaleY)
  }

  /**
   * What applying options promises: groups are added to, never removed; the
   * flags are exactly the configured toggles; both scale copies agree with
   * the configuration; the object's kind is untouched.
   */
  lemma AppliedEffect(s: ObjectState, o: ObjectOptions)
    ensures Applied(s, o).groups == s.groups + o.groups
    ensures s.groups <= Applied(s, o).groups && o.groups <= Applied(s, o).groups
    ensures Flags(Applied(s, o)) == o.toggles
    ensures Applied(s, o).nodeScaleX == Applied(s, o).scaleX == o.scaleX
    ensures Applied(s, o).nodeScaleY == Applied(s, o).scaleY == o.scaleY
    ensures Applied(s, o).objectID == s.objectID
  {
  }

  /** Applying the same options twice leaves the object as applying them once. */
  lemma AppliedIdempotent(s: ObjectState, o: ObjectOptions)
    ensures Applied(Applied(s, o), o) == Applied(s, o)
  {
    assert (s.groups + o.groups) + o.groups == s.groups + o.groups;
  }

  /**
   * Applying `a` and then `b`: the groups of both are added, while the flags
   * and scale are those of `b`, whatever `a` said.
   */
  lemma AppliedTwice(s: ObjectState, a: ObjectOptions, b: ObjectOptions)
    ensures Applied(Applied(s, a), b).groups == s.groups + a.groups + b.groups
    ensures Applied(Applied(s, a), b) == Applied(s, b).(groups := s.groups + a.groups + b.groups)
  {
  }

  /** The state after applying options depends on the earlier flags and scale not at all. */
  lemma AppliedOverwrites(s: ObjectState, t: ObjectState, o: ObjectOptions)
    requires s.objectID == t.objectID && s.groups == t.groups
    ensures Applied(s, o) == Applied(t, o)
  {
  }

  /** A game object of the host, reduced to the fields the mod writes. */
  class GameObject {
    const objectID: int
    var groups: set<int>
    var isDontFade: bool
    var isDontEnter: bool
    var hasNoEffects: bool
    var isNoTouch: bool
    var hasNoParticles: bool
    var hasNoGlow: bool
    /** The node scale that setScaleX/setScaleY write. */
    var nodeScaleX: real
    var nodeScaleY: real
    /** The raw m_scaleX/m_scaleY fields. */
    var scaleX: real
    var scaleY: real

    function State(): ObjectState
      reads this
    {
      ObjectState(objectID, groups, isDontFade, isDontEnter, hasNoEffects, isNoTouch,
                  hasNoParticles, hasNoGlow, nodeScaleX, nodeScaleY, scaleX, scaleY)
    }

    /** A freshly created object in the state `s`, standing for the host's own construction. */
    constructor (s: ObjectState)
      ensures State() == s
    {
      objectID := s.objectID;
      groups := s.groups;
      isDontFade, isDontEnter, hasNoEffects := s.isDontFade, s.isDontEnter, s.hasNoEffects;
      isNoTouch, hasNoParticles, hasNoGlow := s.isNoTouch, s.hasNoParticles, s.hasNoGlow;
      nodeScaleX, nodeScaleY, scaleX, scaleY := s.nodeScaleX, s.nodeScaleY, s.scaleX, s.scaleY;
    }

    /** Joining a group the object is already in changes nothing. */
    method AddToGroup(group: int)
      modifies this`groups
      ensures groups == old(groups) + {group}
    {
      groups := groups + {group};
    }

    /** The node-scale setter for the X axis; its rendering side effects are not modelled. */
    method SetScaleX(x: real)
      modifies this`nodeScaleX
      ensures nodeScaleX == x
    {
      nodeScaleX := x;
    }

    /** The node-scale setter for the Y axis. */
    method SetScaleY(y: real)
      modifies this`nodeScaleY
      ensures nodeScaleY == y
    {
      nodeScaleY := y;
    }
  }
}
