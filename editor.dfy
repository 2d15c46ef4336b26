/**
 * The editor-layer extension: per-session settings and the default-options
 * table, the loading of the table when a level is opened, and the patching
 * of every object the editor creates.
 */
module EditorHook {
  import opened Wrappers
  import opened Json
  import opened CNumbers
  import opened Options
  import opened Table
  import opened GameObjects

  /**
   * What reading the configuration file gave: the file is absent, its text
   * is not well-formed JSON, or it parsed to a document.
   */
  datatype ConfigFile = Missing | Unparsable | Parsed(doc: Json)

  /** The two hard failures of loading; each is shown to the user as an error notification. */
  datatype LoadError = NotFound | ParseError

  const NotFoundMessage: string := "(Default Object Options) invalid filepath, try 'entries.json' :3"
  const ParseErrorMessage: string := "(Default Object Options) failed to parse :3"

  /** The text of the notification each failure shows. */
  function Message(e: LoadError): (m: string)
    ensures m == NotFoundMessage <==> e == NotFound
    ensures m == ParseErrorMessage <==> e == ParseError
  {
    match e
    case NotFound => NotFoundMessage
    case ParseError => ParseErrorMessage
  }

  /** The persisted settings the session reads once when it starts. */
  datatype Settings = Settings(advancedOptions: bool, dontFade: bool, dontEnter: bool, noGlow: bool)

  /**
   * Loading into an existing table: the two failures leave it as it is, a
   * document that is not an object leaves it as it is without complaint, and
   * an object has its members inserted in order.
   */
  function LoadInto(table: OptionsTable, config: ConfigFile, w: LongWidth): OptionsTable {
    match config
    case Parsed(JObj(members)) => InsertAll(table, members, w)
    case _ => table
  }

  /** The failure a configuration file reports, if any. */
  function LoadErrorOf(config: ConfigFile): Option<LoadError> {
    match config
    case Missing => Some(NotFound)
    case Unparsable => Some(ParseError)
    case Parsed(_) => None
  }

  /**
   * The table a configuration file gives a session, or the failure that
   * disables the feature. A document that is not an object gives an empty
   * table and no failure; an object gives exactly the admitted IDs of its
   * keys, never the ID 0.
   */
  function LoadTable(config: ConfigFile, w: LongWidth): (r: Result<OptionsTable, LoadError>)
    ensures config.Missing? <==> r == Err(NotFound)
    ensures config.Unparsable? <==> r == Err(ParseError)
    ensures config.Parsed? && !config.doc.JObj? ==> r == Ok(map[])
    ensures r.Ok? ==> 0 !in r.value
    ensures r.Ok? && config.doc.JObj? ==>
              forall id :: id in r.value <==> Admits(config.doc.members, w, id)
  {
    match config
    case Missing => Err(NotFound)
    case Unparsable => Err(ParseError)
    case Parsed(doc) =>
      if doc.JObj? then
        var t := BuildTable(doc.members, w);
        BuildTableNoZero(doc.members, w);
        forall id ensures id in t <==> Admits(doc.members, w, id) {
          InsertAllKeys(map[], doc.members, w, id);
        }
        Ok(t)
      else Ok(map[])
  }

  /** The session's table after a load, starting from the empty table it is created with. */
  lemma LoadIntoEmpty(config: ConfigFile, w: LongWidth)
    ensures LoadTable(config, w).Ok? ==> LoadInto(map[], config, w) == LoadTable(config, w).value
    ensures LoadTable(config, w).Err? ==> LoadInto(map[], config, w) == map[]
    ensures LoadErrorOf(config) == (if LoadTable(config, w).Err? then Some(LoadTable(config, w).error) else None)
  {
  }

  /**
   * What creating an object does to it: the three session flags are written,
   * then, in advanced mode with a non-empty table, the entry for 0 and after
   * it the entry for the object's type are applied when present.
   */
  function Patched(s: ObjectState, settings: Settings, table: OptionsTable, typeId: int): ObjectState {
    var s1 := WithSessionFlags(s, settings.dontFade, settings.dontEnter, settings.noGlow);
    if !settings.advancedOptions || |table| == 0 then s1
    else
      var s2 := if 0 in table then Applied(s1, table[0]) else s1;
      if typeId in table then Applied(s2, table[typeId]) else s2
  }

  /** Without advanced mode, or with an empty table, only the three session flags change. */
  lemma PatchedBasic(s: ObjectState, settings: Settings, table: OptionsTable, typeId: int)
    requires !settings.advancedOptions || table == map[]
    ensures var r := Patched(s, settings, table, typeId);
            r.isDontFade == settings.dontFade && r.isDontEnter == settings.dontEnter && r.hasNoGlow == settings.noGlow
            && r == s.(isDontFade := r.isDontFade, isDontEnter := r.isDontEnter, hasNoGlow := r.hasNoGlow)
  {
  }

  /**
   * With entries for both 0 and the type, the type's entry decides the flags
   * and the scale, and the object joins the groups of both.
   */
  lemma PatchedOverride(s: ObjectState, settings: Settings, table: OptionsTable, typeId: int)
    requires settings.advancedOptions && 0 in table && typeId in table
    ensures var r := Patched(s, settings, table, typeId);
            r.groups == s.groups + table[0].groups + table[typeId].groups
            && Flags(r) == table[typeId].toggles
            && r.nodeScaleX == r.scaleX == table[typeId].scaleX
            && r.nodeScaleY == r.scaleY == table[typeId].scaleY
            && r.objectID == s.objectID
  {
    var s1 := WithSessionFlags(s, settings.dontFade, settings.dontEnter, settings.noGlow);
    assert |table| > 0 by { assert 0 in table.Keys; }
    AppliedTwice(s1, table[0], table[typeId]);
    AppliedEffect(s1, table[typeId]);
  }

  /** With an entry for the type only, that entry decides flags, scale and the added groups. */
  lemma PatchedTypeOnly(s: ObjectState, settings: Settings, table: OptionsTable, typeId: int)
    requires settings.advancedOptions && 0 !in table && typeId in table
    ensures Patched(s, settings, table, typeId)
            == Applied(WithSessionFlags(s, settings.dontFade, settings.dontEnter, settings.noGlow), table[typeId])
  {
    assert |table| > 0 by { assert typeId in table.Keys; }
  }

  /**
   * With a table the configuration built, the entry for 0 is never there, so
   * an object gets its type's entry if there is one and otherwise only the
   * session flags; an object of type 0 never gets more than the session flags.
   */
  lemma PatchedFromConfig(s: ObjectState, settings: Settings, members: seq<(string, Json)>, w: LongWidth, typeId: int)
    ensures var table := BuildTable(members, w);
            var s1 := WithSessionFlags(s, settings.dontFade, settings.dontEnter, settings.noGlow);
            Patched(s, settings, table, typeId)
            == if settings.advancedOptions && typeId in table then Applied(s1, table[typeId]) else s1
    ensures Patched(s, settings, BuildTable(members, w), 0)
            == WithSessionFlags(s, settings.dontFade, settings.dontEnter, settings.noGlow)
  {
    var table := BuildTable(members, w);
    BuildTableNoZero(members, w);
    if typeId in table {
      assert |table| > 0 by { assert typeId in table.Keys; }
    }
  }

  /** A missing or broken configuration file leaves every object with only the session flags. */
  lemma FailedLoadOnlySessionFlags(s: ObjectState, settings: Settings, config: ConfigFile, w: LongWidth, typeId: int)
    requires !config.Parsed? || !config.doc.JObj?
    ensures Patched(s, settings, LoadInto(map[], config, w), typeId)
            == WithSessionFlags(s, settings.dontFade, settings.dontEnter, settings.noGlow)
  {
  }

  /** Re-applying options to an object that already carries them changes nothing. */
  lemma AppliedAgain(s: ObjectState, t: ObjectState, o: ObjectOptions)
    requires t.objectID == s.objectID && o.groups <= s.groups && s.groups == t.groups
    requires Flags(s) == o.toggles
    requires s.nodeScaleX == s.scaleX == o.scaleX && s.nodeScaleY == s.scaleY == o.scaleY
    ensures Applied(t, o) == s
  {
    assert s.groups + o.groups == s.groups;
    assert Flags(s)[0] == o.toggles[0] && Flags(s)[1] == o.toggles[1] && Flags(s)[2] == o.toggles[2];
    assert Flags(s)[3] == o.toggles[3] && Flags(s)[4] == o.toggles[4] && Flags(s)[5] == o.toggles[5];
  }

  /** Creating an object patches it the same way however often the patch is repeated. */
  lemma PatchedIdempotent(s: ObjectState, settings: Settings, table: OptionsTable, typeId: int)
    ensures Patched(Patched(s, settings, table, typeId), settings, table, typeId) == Patched(s, settings, table, typeId)
  {
    var r := Patched(s, settings, table, typeId);
    var s1 := WithSessionFlags(s, settings.dontFade, settings.dontEnter, settings.noGlow);
    var r1 := WithSessionFlags(r, settings.dontFade, settings.dontEnter, settings.noGlow);
    if settings.advancedOptions && |table| > 0 {
      if 0 in table && typeId in table {
        var a, b := table[0], table[typeId];
        PatchedOverride(s, settings, table, typeId);
        var m := Applied(r1, a);
        AppliedEffect(r1, a);
        AppliedAgain(r, m, b);
      } else if 0 in table {
        var a := table[0];
        AppliedEffect(s1, a);
        AppliedAgain(r, r1, a);
      } else if typeId in table {
        var b := table[typeId];
        AppliedEffect(s1, b);
        AppliedAgain(r, r1, b);
      }
    }
  }

  /** A set of groups with no member is the empty set. */
  lemma NoMemberIsEmpty(groups: set<int>)
    ensures (forall g :: g !in groups) ==> groups == {}
  {
    if forall g :: g !in groups {
      assert forall g :: g in groups <==> g in {};
    }
  }

  /** One editor session: its cached settings and its default-options table. */
  class Editor {
    var defaultObjectOptions: OptionsTable
    const advancedDefaultOptions: bool
    const dontFade: bool
    const dontEnter: bool
    const noGlow: bool
    /** The width of C's `long` on the platform the session runs on. */
    const longWidth: LongWidth

    function SessionSettings(): Settings {
      Settings(advancedDefaultOptions, dontFade, dontEnter, noGlow)
    }

    /** A new session reads the four settings and starts with an empty table. */
    constructor (settings: Settings, w: LongWidth)
      ensures SessionSettings() == settings && longWidth == w
      ensures defaultObjectOptions == map[]
    {
      advancedDefaultOptions := settings.advancedOptions;
      dontFade := settings.dontFade;
      dontEnter := settings.dontEnter;
      noGlow := settings.noGlow;
      longWidth := w;
      defaultObjectOptions := map[];
    }

    /**
     * Opening a level: when the host's own initialisation fails nothing else
     * happens; otherwise the table is loaded in advanced mode.
     */
    method Init(baseInitOk: bool, config: ConfigFile) returns (ok: bool, failure: Option<LoadError>)
      modifies this`defaultObjectOptions
      ensures ok == baseInitOk
      ensures failure == if baseInitOk && advancedDefaultOptions then LoadErrorOf(config) else None
      ensures defaultObjectOptions ==
              if baseInitOk && advancedDefaultOptions then LoadInto(old(defaultObjectOptions), config, longWidth)
              else old(defaultObjectOptions)
    {
      failure := None;
      if !baseInitOk {
        return false, failure;
      }
      if advancedDefaultOptions {
        failure := ParseDefaultObjectOptions(config);
      }
      ok := true;
    }

    /**
     * Filling the table from the configuration file, member by member in
     * file order, inserting only IDs that are not taken yet. The failure
     * returned is the notification the user is shown.
     */
    method ParseDefaultObjectOptions(config: ConfigFile) returns (failure: Option<LoadError>)
      modifies this`defaultObjectOptions
      ensures failure == LoadErrorOf(config)
      ensures defaultObjectOptions == LoadInto(old(defaultObjectOptions), config, longWidth)
    {
      if config.Missing? {
        return Some(NotFound);
      }
      if config.Unparsable? {
        return Some(ParseError);
      }
      failure := None;
      var json := config.doc;
      if !json.JObj? {
        return;
      }
      var members := json.members;
      var i := 0;
      while i < |members|
        invariant 0 <= i <= |members|
        invariant defaultObjectOptions == InsertAll(old(defaultObjectOptions), members[..i], longWidth)
      {
        var (key, value) := members[i];
        InsertAllStep(old(defaultObjectOptions), members, i, longWidth);
        // The zero test is made on the narrowed `int`, as Table.ObjectId has it.
        var objectID := ToInt32(StrToL(key, longWidth));
        if objectID != 0 {
          var objectOptions := ParseEntry(value);
          if objectID !in defaultObjectOptions {
            defaultObjectOptions := defaultObjectOptions[objectID := objectOptions];
          }
        }
        i := i + 1;
      }
      assert members[..i] == members;
    }

    /**
     * The hook on object creation. `obj` is what the host's own creation
     * returned; a null object is passed back untouched.
     */
    method CreateObject(obj: GameObject?, typeId: int) returns (r: GameObject?)
      modifies obj
      ensures r == obj
      ensures obj != null ==> obj.State() == Patched(old(obj.State()), SessionSettings(), defaultObjectOptions, typeId)
    {
      if obj == null {
        return obj;
      }
      obj.isDontFade := dontFade;
      obj.isDontEnter := dontEnter;
      obj.hasNoGlow := noGlow;
      if !advancedDefaultOptions || |defaultObjectOptions| == 0 {
        return obj;
      }
      if 0 in defaultObjectOptions {
        UpdateObjectWithObjectOptions(obj, defaultObjectOptions[0]);
      }
      if typeId in defaultObjectOptions {
        UpdateObjectWithObjectOptions(obj, defaultObjectOptions[typeId]);
      }
      return obj;
    }

    /**
     * Applying one table entry to an object: join each group in turn, then
     * write the six flags, then each scale axis through the setter and into
     * the raw field.
     */
    method UpdateObjectWithObjectOptions(obj: GameObject, options: ObjectOptions)
      modifies obj
      ensures obj.State() == Applied(old(obj.State()), options)
    {
      ghost var s0 := obj.State();
      var pending, added := options.groups, {};
      while pending != {}
        invariant added + pending == options.groups
        invariant obj.groups == s0.groups + added
        modifies obj`groups
        decreases pending
      {
        NoMemberIsEmpty(pending);
        var group :| group in pending;
        obj.AddToGroup(group);
        pending, added := pending - {group}, added + {group};
      }
      var toggles := options.toggles;
      obj.isDontFade, obj.isDontEnter, obj.hasNoEffects := toggles[0], toggles[1], toggles[2];
      obj.isNoTouch, obj.hasNoParticles, obj.hasNoGlow := toggles[3], toggles[4], toggles[5];
      obj.SetScaleX(options.scaleX);
      obj.scaleX := options.scaleX;
      obj.SetScaleY(options.scaleY);
      obj.scaleY := options.scaleY;
    }
  }
}
