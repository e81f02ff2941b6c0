/** Folding a Salt highstate description into sensors of a Salt entity
    (SaltHighstate.java).

    The highstate is a list of YAML documents; each document maps scopes to
    states, each state maps modules to a list of entries, and each entry is
    either a mapping of settings or a plain value naming the module's method.
    YAML parsing is not modelled: the operations take the parsed tree. The
    maps the code iterates (documents, scopes, states, modules) come from the
    YAML parser in document order and are sequences of (key, value) pairs
    here; module settings are maps, whose key order is not kept. */
module SaltHighstate {
  import opened Wrappers
  import opened Text

  /** A value inside a module's settings, as the YAML parser delivers it. */
  datatype Value =
    | Str(s: string)
    | Int(i: int)
    | Bool(b: bool)
    | List(items: seq<Value>)
    | Dict(fields: map<string, Value>)

  /** One entry of a module's list: a mapping of settings, or any other value,
      which the fold only uses through its `toString`, kept in `text`. */
  datatype Entry = Mapping(settings: map<string, Value>) | NonMapping(text: string)

  /** A module of a state: its name and its list of entries. */
  type Module = (string, seq<Entry>)
  /** The modules of one state, in document order. */
  type StateInfo = seq<Module>
  /** The states of one scope, in document order. */
  type StateMap = seq<(string, StateInfo)>
  /** The scopes of one document, in document order. */
  type ScopeMap = seq<(string, StateMap)>

  const PythonUnicodeTag := "!!python/unicode"
  const JavaStringTag := "!!java.lang.String"

  // ---------------------------------------------------------------------
  // Rewriting the Python type tags
  // ---------------------------------------------------------------------

  /** Salt emits `!!python/unicode` tags, which the Java YAML parser does not
      know; every one of them is rewritten to `!!java.lang.String`. */
  function AdaptForSaltYamlTypes(description: string): (r: string)
    ensures !Occurs(description, PythonUnicodeTag) ==> r == description
    ensures !Occurs(r, PythonUnicodeTag)
  {
    ReplaceAllWithoutOccurrence(description, PythonUnicodeTag, JavaStringTag);
    AdaptedHasNoPythonTag(description);
    ReplaceAll(description, PythonUnicodeTag, JavaStringTag)
  }

  /** The first `!!python/unicode` tag of the description becomes
      `!!java.lang.String`; the text before it is kept and the text after it
      is rewritten in turn. With the no-tag case above this fixes the result. */
  lemma AdaptReplacesFirstTag(description: string, i: nat)
    requires OccursAt(description, PythonUnicodeTag, i)
    requires forall k: nat :: k < i ==> !OccursAt(description, PythonUnicodeTag, k)
    ensures AdaptForSaltYamlTypes(description)
            == description[..i] + JavaStringTag + AdaptForSaltYamlTypes(description[i + |PythonUnicodeTag|..])
  {
    ReplaceAllAtFirstOccurrence(description, PythonUnicodeTag, JavaStringTag, i);
  }

  /** A prefix without `!` of the rewritten text was already a prefix of the
      original text: the rewriting only introduces text starting with `!`. */
  lemma {:induction false} BangFreePrefix(t: string, u: string)
    requires '!' !in u
    ensures StartsWith(ReplaceAll(t, PythonUnicodeTag, JavaStringTag), u) ==> StartsWith(t, u)
  {
    var p := PythonUnicodeTag;
    var r := ReplaceAll(t, p, JavaStringTag);
    if |u| > 0 && |t| >= |p| {
      if t[..|p|] == p {
        assert r[0] == '!';
      } else {
        var r' := ReplaceAll(t[1..], p, JavaStringTag);
        assert r == [t[0]] + r';
        BangFreePrefix(t[1..], u[1..]);
        if StartsWith(r, u) {
          assert r'[..|u| - 1] == r[1..|u|] == u[1..];
          assert t[..|u|] == [t[0]] + t[1..][..|u| - 1];
        }
      }
    }
  }

  /** After the rewriting no `!!python/unicode` tag is left. */
  lemma {:induction false} AdaptedHasNoPythonTag(s: string)
    ensures !Occurs(ReplaceAll(s, PythonUnicodeTag, JavaStringTag), PythonUnicodeTag)
  {
    var p, j := PythonUnicodeTag, JavaStringTag;
    if |s| < |p| {
    } else if s[..|p|] == p {
      AdaptedHasNoPythonTag(s[|p|..]);
      NoTagAfterReplacement(ReplaceAll(s[|p|..], p, j));
    } else {
      var r' := ReplaceAll(s[1..], p, j);
      AdaptedHasNoPythonTag(s[1..]);
      var r := [s[0]] + r';
      forall i: nat | i <= |r| ensures !OccursAt(r, p, i) {
        if i >= 1 && i + |p| <= |r| {
          assert r[i..i + |p|] == r'[i - 1..i - 1 + |p|];
          NotOccursAt(r', p, i - 1);
        } else if i == 0 && |p| <= |r| {
          FirstWindowDiffers(s, r, r');
        }
      }
    }
  }

  /** Putting `!!java.lang.String` in front of text without the tag creates
      no tag: no window that starts inside the replacement matches. */
  lemma NoTagAfterReplacement(rest: string)
    requires !Occurs(rest, PythonUnicodeTag)
    ensures !Occurs(JavaStringTag + rest, PythonUnicodeTag)
  {
    var p, j := PythonUnicodeTag, JavaStringTag;
    var r := j + rest;
    assert r[..|j|] == j;
    forall i: nat | i <= |r| ensures !OccursAt(r, p, i) {
      if i + |p| <= |r| {
        if i >= |j| {
          assert r[i..i + |p|] == rest[i - |j|..i - |j| + |p|];
          NotOccursAt(rest, p, i - |j|);
        } else {
          WindowInReplacement(r, i);
        }
      }
    }
  }

  /** A window that starts inside a leading `!!java.lang.String` is not the
      tag: from its third character on the replacement has no `!`, and its
      third and fourth characters are not the tag's `p`. */
  lemma WindowInReplacement(r: string, i: nat)
    requires |r| >= |JavaStringTag| && r[..|JavaStringTag|] == JavaStringTag
    requires i < |JavaStringTag| && i + |PythonUnicodeTag| <= |r|
    ensures r[i..i + |PythonUnicodeTag|] != PythonUnicodeTag
  {
    TagShapes();
    var p, j := PythonUnicodeTag, JavaStringTag;
    var w := r[i..i + |p|];
    if i >= 2 {
      assert r[i] == j[i] == j[2..][i - 2];
      assert w[0] == r[i];
    } else {
      assert r[i + 2] == j[i + 2];
      assert w[2] == r[i + 2];
    }
  }

  /** The characters of the two tags the window arguments use. */
  lemma TagShapes()
    ensures |PythonUnicodeTag| == 16 && PythonUnicodeTag[0] == '!' && PythonUnicodeTag[2] == 'p'
    ensures |JavaStringTag| == 18 && JavaStringTag[2] == 'j' && JavaStringTag[3] == 'a'
    ensures '!' !in JavaStringTag[2..]
  {
    assert JavaStringTag[2..] == "java.lang.String";
  }

  /** The first window of the rewritten text is not the tag when the original
      text does not start with it. */
  lemma FirstWindowDiffers(s: string, r: string, r': string)
    requires |s| >= |PythonUnicodeTag| && s[..|PythonUnicodeTag|] != PythonUnicodeTag
    requires r' == ReplaceAll(s[1..], PythonUnicodeTag, JavaStringTag)
    requires r == [s[0]] + r' && |r| >= |PythonUnicodeTag|
    ensures r[..|PythonUnicodeTag|] != PythonUnicodeTag
  {
    var p, j := PythonUnicodeTag, JavaStringTag;
    var t := s[1..];
    if s[0] != '!' {
      assert r[..|p|][0] != p[0];
    } else if |t| < |p| {
      assert r == s;
    } else if t[..|p|] == p {
      assert r[..|p|][2] == j[1];
    } else {
      var r'' := ReplaceAll(t[1..], p, j);
      assert r' == [t[0]] + r'';
      if t[0] != '!' {
        assert r[..|p|][1] != p[1];
      } else {
        assert t[1..] == s[2..] && t[0] == s[1];
        assert r == [s[0], s[1]] + r'';
        BangBangWindowDiffers(s, r, r'');
      }
    }
  }

  /** The case of `FirstWindowDiffers` where the text starts with `!!` but not
      with the tag: the rest of the window comes from rewriting text that does
      not start with the tag's tail. */
  lemma BangBangWindowDiffers(s: string, r: string, r'': string)
    requires |s| >= |PythonUnicodeTag| && s[..|PythonUnicodeTag|] != PythonUnicodeTag
    requires s[0] == '!' && s[1] == '!'
    requires r'' == ReplaceAll(s[2..], PythonUnicodeTag, JavaStringTag)
    requires r == [s[0], s[1]] + r'' && |r| >= |PythonUnicodeTag|
    ensures r[..|PythonUnicodeTag|] != PythonUnicodeTag
  {
    var p := PythonUnicodeTag;
    assert |p| == 16 && p[2..] == "python/unicode";
    BangFreePrefix(s[2..], p[2..]);
    assert r[..|p|] == [s[0], s[1]] + r''[..|p| - 2];
    assert s[..|p|] == [s[0], s[1]] + s[2..][..|p| - 2];
    assert p == [p[0], p[1]] + p[2..];
  }

  // ---------------------------------------------------------------------
  // One module: its method and its merged settings
  // ---------------------------------------------------------------------

  /** Modules whose name starts with `__` (such as `__sls__`, `__env__`) are
      Salt's own bookkeeping and publish nothing. */
  predicate IsSaltInternal(moduleName: string) {
    StartsWith(moduleName, "__")
  }

  /** The method a module's entries name: the last non-mapping entry wins. */
  function MethodOf(entries: seq<Entry>): string
  {
    if entries == [] then ""
    else
      match entries[|entries| - 1]
      case NonMapping(t) => t
      case Mapping(_) => MethodOf(entries[..|entries| - 1])
  }

  /** The settings of a module: the union of its mapping entries, a later
      mapping overriding the keys of an earlier one. */
  function SettingsOf(entries: seq<Entry>): map<string, Value>
  {
    if entries == [] then map[]
    else
      var previous := SettingsOf(entries[..|entries| - 1]);
      match entries[|entries| - 1]
      case Mapping(m) => previous + m
      case NonMapping(_) => previous
  }

  /** The method is `""` when every entry is a mapping, and otherwise the text
      of the last non-mapping entry. */
  lemma {:induction false} MethodOfIsLastNonMapping(entries: seq<Entry>)
    ensures (forall k :: 0 <= k < |entries| ==> entries[k].Mapping?) ==> MethodOf(entries) == ""
    ensures (exists k :: 0 <= k < |entries| && entries[k].NonMapping?) ==>
              exists k :: 0 <= k < |entries| && entries[k] == NonMapping(MethodOf(entries))
                          && forall j :: k < j < |entries| ==> entries[j].Mapping?
  {
    if entries != [] {
      var n := |entries| - 1;
      var front := entries[..n];
      MethodOfIsLastNonMapping(front);
      assert forall k :: 0 <= k < n ==> front[k] == entries[k];
      if entries[n].NonMapping? {
        assert entries[n] == NonMapping(MethodOf(entries));
      } else {
        assert MethodOf(entries) == MethodOf(front);
        if exists k :: 0 <= k < |entries| && entries[k].NonMapping? {
          var k :| 0 <= k < |entries| && entries[k].NonMapping?;
          assert front[k].NonMapping?;
          var last :| 0 <= last < n && front[last] == NonMapping(MethodOf(front))
                      && forall j :: last < j < n ==> front[j].Mapping?;
          assert entries[last] == NonMapping(MethodOf(entries));
          assert forall j :: last < j < |entries| ==> entries[j].Mapping?;
        }
      }
    }
  }

  /** A key is among the settings exactly when some mapping entry holds it,
      and its value is the one of the last mapping entry holding it. */
  lemma SettingsOfMerges(entries: seq<Entry>, key: string)
    ensures key in SettingsOf(entries) <==>
              exists k :: 0 <= k < |entries| && entries[k].Mapping? && key in entries[k].settings
    ensures key in SettingsOf(entries) ==>
              exists k :: && 0 <= k < |entries| && entries[k].Mapping? && key in entries[k].settings
                          && SettingsOf(entries)[key] == entries[k].settings[key]
                          && forall j :: k < j < |entries| && entries[j].Mapping? ==> key !in entries[j].settings
  {
    SettingsOfHasKey(entries, key);
    if key in SettingsOf(entries) {
      SettingsOfLastValue(entries, key);
    }
  }

  /** What the last entry does to one key of the settings. */
  lemma SettingsOfStep(entries: seq<Entry>, key: string)
    requires entries != []
    ensures var e, front := entries[|entries| - 1], SettingsOf(entries[..|entries| - 1]);
      && (e.Mapping? && key in e.settings ==>
            key in SettingsOf(entries) && SettingsOf(entries)[key] == e.settings[key])
      && (!(e.Mapping? && key in e.settings) ==>
            && (key in SettingsOf(entries) <==> key in front)
            && (key in front ==> SettingsOf(entries)[key] == front[key]))
  {
  }

  lemma {:induction false} SettingsOfHasKey(entries: seq<Entry>, key: string)
    ensures key in SettingsOf(entries) <==>
              exists k :: 0 <= k < |entries| && entries[k].Mapping? && key in entries[k].settings
  {
    if entries != [] {
      var n := |entries| - 1;
      var front := entries[..n];
      SettingsOfHasKey(front, key);
      SettingsOfStep(entries, key);
      assert forall k :: 0 <= k < n ==> front[k] == entries[k];
      if exists k :: 0 <= k < |entries| && entries[k].Mapping? && key in entries[k].settings {
        var k :| 0 <= k < |entries| && entries[k].Mapping? && key in entries[k].settings;
        if k < n {
          assert front[k].Mapping? && key in front[k].settings;
        }
      }
    }
  }

  lemma {:induction false} SettingsOfLastValue(entries: seq<Entry>, key: string)
    requires key in SettingsOf(entries)
    ensures exists k :: && 0 <= k < |entries| && entries[k].Mapping? && key in entries[k].settings
                        && SettingsOf(entries)[key] == entries[k].settings[key]
                        && forall j :: k < j < |entries| && entries[j].Mapping? ==> key !in entries[j].settings
  {
    var n := |entries| - 1;
    var front := entries[..n];
    var e := entries[n];
    SettingsOfStep(entries, key);
    if e.Mapping? && key in e.settings {
      assert SettingsOf(entries)[key] == entries[n].settings[key];
    } else {
      SettingsOfLastValue(front, key);
      var k :| && 0 <= k < n && front[k].Mapping? && key in front[k].settings
               && SettingsOf(front)[key] == front[k].settings[key]
               && forall j :: k < j < n && front[j].Mapping? ==> key !in front[j].settings;
      assert entries[k] == front[k];
      assert forall j :: k < j < n ==> entries[j] == front[j];
    }
  }

  /** The inner loop of the module walk: the method and merged settings of one
      module's entries, read in order. */
  method ReadModuleEntries(stateEntries: seq<Entry>) returns (methodName: string, moduleSettings: map<string, Value>)
    ensures methodName == MethodOf(stateEntries)
    ensures moduleSettings == SettingsOf(stateEntries)
  {
    methodName := "";
    moduleSettings := map[];
    for i := 0 to |stateEntries|
      invariant methodName == MethodOf(stateEntries[..i])
      invariant moduleSettings == SettingsOf(stateEntries[..i])
    {
      assert stateEntries[..i + 1][..i] == stateEntries[..i];
      match stateEntries[i]
      case Mapping(m) =>
        moduleSettings := moduleSettings + m;
      case NonMapping(t) =>
        methodName := t;
    }
    assert stateEntries[..|stateEntries|] == stateEntries;
  }

  // ---------------------------------------------------------------------
  // The entity's sensors and the fold that specifies them
  // ---------------------------------------------------------------------

  /** The sensors the fold writes: the `STATES` list (`None` while the sensor
      has never been set) and the map-valued module sensors by name. */
  datatype Sensors = Sensors(states: Option<seq<string>>, modules: map<string, map<string, Value>>)

  /** No state appears twice in `STATES`. */
  ghost predicate NoDuplicateStates(states: Option<seq<string>>) {
    states.Some? ==> forall i, j :: 0 <= i < j < |states.value| ==> states.value[i] != states.value[j]
  }

  ghost predicate IsPrefix(a: seq<string>, b: seq<string>) {
    |a| <= |b| && b[..|a|] == a
  }

  /** Registering a state: it ends up in `STATES`, appended at the end when new,
      the existing order kept, and no duplicate created. */
  function AddState(v: Sensors, state: string): (r: Sensors)
    ensures r.modules == v.modules
    ensures r.states.Some? && state in r.states.value
    ensures v.states.None? ==> r.states.value == [state]
    ensures v.states.Some? ==> IsPrefix(v.states.value, r.states.value)
    ensures forall s :: s in r.states.value ==> s == state || (v.states.Some? && s in v.states.value)
    ensures NoDuplicateStates(v.states) ==> NoDuplicateStates(r.states)
  {
    match v.states
    case None => v.(states := Some([state]))
    case Some(list) => if state in list then v else v.(states := Some(list + [state]))
  }

  /** Registering a state that is already registered changes nothing. */
  lemma AddStateIdempotent(v: Sensors, state: string)
    ensures AddState(AddState(v, state), state) == AddState(v, state)
  {
  }

  /** `Strings.join([state, module, method], ".")`. */
  function SensorName(state: string, moduleName: string, methodName: string): string {
    state + "." + moduleName + "." + methodName
  }

  /** A module publishes a sensor when it is not internal and has settings. */
  predicate Publishes(m: Module) {
    !IsSaltInternal(m.0) && SettingsOf(m.1) != map[]
  }

  /** The sensor name is the three parts joined with `.`; when none of them
      holds a `.`, splitting the name at `.` gives them back. */
  lemma SensorNameSplits(state: string, moduleName: string, methodName: string)
    requires '.' !in state && '.' !in moduleName && '.' !in methodName
    ensures SensorName(state, moduleName, methodName) == Join([state, moduleName, methodName], '.')
    ensures Split(SensorName(state, moduleName, methodName), '.') == [state, moduleName, methodName]
  {
    JoinThree(state, moduleName, methodName, '.');
    SensorNameParts(state, moduleName, methodName);
    SplitThree(state, moduleName, methodName, '.');
  }

  /** The sensor name with its two separators grouped to the right. */
  lemma SensorNameParts(state: string, moduleName: string, methodName: string)
    ensures SensorName(state, moduleName, methodName) == state + ['.'] + (moduleName + ['.'] + methodName)
  {
    AppendAssociative(state + ".", moduleName + ".", methodName);
    AppendAssociative(state, ".", moduleName + "." + methodName);
  }

  /** A module is internal exactly when its name starts with two
      underscores, and applying an internal module changes no sensor. */
  lemma SaltInternalModules(v: Sensors, state: string, m: Module)
    ensures IsSaltInternal(m.0) <==> |m.0| >= 2 && m.0[0] == '_' && m.0[1] == '_'
    ensures IsSaltInternal(m.0) ==> ApplyModule(v, state, m) == v
  {
    if |m.0| >= 2 && m.0[0] == '_' && m.0[1] == '_' {
      assert m.0[..2] == "__";
    }
  }

  /** The name of the sensor a module of `state` publishes. */
  function ModuleSensorName(state: string, m: Module): string {
    SensorName(state, m.0, MethodOf(m.1))
  }

  /** One module's effect on the sensors. */
  function ApplyModule(v: Sensors, state: string, m: Module): Sensors {
    if Publishes(m) then v.(modules := v.modules[ModuleSensorName(state, m) := SettingsOf(m.1)]) else v
  }

  /** The modules of a state, applied in order. */
  function ApplyModules(v: Sensors, state: string, info: StateInfo): Sensors
    decreases |info|
  {
    if info == [] then v
    else ApplyModule(ApplyModules(v, state, info[..|info| - 1]), state, info[|info| - 1])
  }

  /** One state: registered first, then its modules. */
  function ApplyState(v: Sensors, state: string, info: StateInfo): Sensors {
    ApplyModules(AddState(v, state), state, info)
  }

  /** The states of one scope, in order. */
  function ApplyStates(v: Sensors, stateMap: StateMap): Sensors
    decreases |stateMap|
  {
    if stateMap == [] then v
    else
      var (state, info) := stateMap[|stateMap| - 1];
      ApplyState(ApplyStates(v, stateMap[..|stateMap| - 1]), state, info)
  }

  /** The scopes of one document, in order. */
  function ApplyScopes(v: Sensors, scopeMap: ScopeMap): Sensors
    decreases |scopeMap|
  {
    if scopeMap == [] then v
    else ApplyStates(ApplyScopes(v, scopeMap[..|scopeMap| - 1]), scopeMap[|scopeMap| - 1].1)
  }

  /** All documents of a highstate, in order. */
  function ApplyDocuments(v: Sensors, documents: seq<ScopeMap>): Sensors
    decreases |documents|
  {
    if documents == [] then v
    else ApplyScopes(ApplyDocuments(v, documents[..|documents| - 1]), documents[|documents| - 1])
  }

  // ---------------------------------------------------------------------
  // What the fold does to STATES and to the module sensors
  // ---------------------------------------------------------------------

  /** The states of all scopes of a document, in visiting order. */
  function FlattenScopes(scopeMap: ScopeMap): StateMap
    decreases |scopeMap|
  {
    if scopeMap == [] then []
    else FlattenScopes(scopeMap[..|scopeMap| - 1]) + scopeMap[|scopeMap| - 1].1
  }

  /** The states of all documents, in visiting order. */
  function FlattenDocuments(documents: seq<ScopeMap>): StateMap
    decreases |documents|
  {
    if documents == [] then []
    else FlattenDocuments(documents[..|documents| - 1]) + FlattenScopes(documents[|documents| - 1])
  }

  /** Applying two runs of states one after the other is applying their
      concatenation. */
  lemma {:induction false} ApplyStatesAppend(v: Sensors, a: StateMap, b: StateMap)
    ensures ApplyStates(v, a + b) == ApplyStates(ApplyStates(v, a), b)
    decreases |b|
  {
    if b != [] {
      var n := |b| - 1;
      assert (a + b)[..|a + b| - 1] == a + b[..n];
      assert (a + b)[|a + b| - 1] == b[n];
      ApplyStatesAppend(v, a, b[..n]);
    } else {
      assert a + b == a;
    }
  }

  /** A whole highstate is applied as one run of states, scope after scope and
      document after document. */
  lemma {:induction false} ApplyDocumentsFlattens(v: Sensors, documents: seq<ScopeMap>)
    ensures ApplyDocuments(v, documents) == ApplyStates(v, FlattenDocuments(documents))
    decreases |documents|
  {
    if documents != [] {
      var n := |documents| - 1;
      ApplyDocumentsFlattens(v, documents[..n]);
      var w := ApplyDocuments(v, documents[..n]);
      ApplyScopesFlattens(w, documents[n]);
      ApplyStatesAppend(v, FlattenDocuments(documents[..n]), FlattenScopes(documents[n]));
    }
  }

  lemma {:induction false} ApplyScopesFlattens(v: Sensors, scopeMap: ScopeMap)
    ensures ApplyScopes(v, scopeMap) == ApplyStates(v, FlattenScopes(scopeMap))
    decreases |scopeMap|
  {
    if scopeMap != [] {
      var n := |scopeMap| - 1;
      ApplyScopesFlattens(v, scopeMap[..n]);
      ApplyStatesAppend(v, FlattenScopes(scopeMap[..n]), scopeMap[n].1);
    }
  }

  /** The module walk never touches STATES. */
  lemma {:induction false} ApplyModulesKeepsStates(v: Sensors, state: string, info: StateInfo)
    ensures ApplyModules(v, state, info).states == v.states
    decreases |info|
  {
    if info != [] {
      ApplyModulesKeepsStates(v, state, info[..|info| - 1]);
    }
  }

  /** The states of a run are all registered in STATES, appended after the
      states already there, once each; nothing else enters STATES. */
  lemma {:induction false} ApplyStatesRegisters(v: Sensors, stateMap: StateMap)
    ensures var r := ApplyStates(v, stateMap);
      && (forall i :: 0 <= i < |stateMap| ==> r.states.Some? && stateMap[i].0 in r.states.value)
      && (r.states.Some? ==> forall s :: s in r.states.value ==>
            (v.states.Some? && s in v.states.value) || exists i :: 0 <= i < |stateMap| && stateMap[i].0 == s)
      && (v.states.Some? ==> r.states.Some? && IsPrefix(v.states.value, r.states.value))
      && (NoDuplicateStates(v.states) ==> NoDuplicateStates(r.states))
    decreases |stateMap|
  {
    if stateMap != [] {
      var n := |stateMap| - 1;
      var front := stateMap[..n];
      var (state, info) := stateMap[n];
      ApplyStatesRegisters(v, front);
      var w := ApplyStates(v, front);
      var added := AddState(w, state);
      ApplyModulesKeepsStates(added, state, info);
      var r := ApplyStates(v, stateMap);
      assert r.states == added.states;
      assert forall i :: 0 <= i < n ==> front[i] == stateMap[i];
      if v.states.Some? {
        assert IsPrefix(w.states.value, r.states.value);
        assert r.states.value[..|v.states.value|] == w.states.value[..|v.states.value|];
      }
    }
  }

  /** One state's modules: every module that publishes has its sensor, every
      new sensor value comes from a publishing module, and sensors no module
      publishes keep their value. Internal modules therefore publish nothing. */
  lemma {:induction false} ApplyModulesSensors(v: Sensors, state: string, info: StateInfo)
    ensures var r := ApplyModules(v, state, info);
      && v.modules.Keys <= r.modules.Keys
      && (forall k :: 0 <= k < |info| && Publishes(info[k]) ==> ModuleSensorName(state, info[k]) in r.modules)
      && (forall name :: name in r.modules ==>
            (name in v.modules && r.modules[name] == v.modules[name])
            || exists k :: && 0 <= k < |info| && Publishes(info[k])
                           && name == ModuleSensorName(state, info[k]) && r.modules[name] == SettingsOf(info[k].1))
      && (forall name :: name in v.modules
            && (forall k :: 0 <= k < |info| && Publishes(info[k]) ==> ModuleSensorName(state, info[k]) != name)
            ==> name in r.modules && r.modules[name] == v.modules[name])
    decreases |info|
  {
    if info != [] {
      var n := |info| - 1;
      var front := info[..n];
      ApplyModulesSensors(v, state, front);
      assert forall k :: 0 <= k < n ==> front[k] == info[k];
    }
  }

  /** The module sensors after a run of states, with the same three promises
      as for one state, over every module of every state of the run. */
  lemma {:induction false} ApplyStatesSensors(v: Sensors, stateMap: StateMap)
    ensures var r := ApplyStates(v, stateMap);
      && v.modules.Keys <= r.modules.Keys
      && (forall i, k :: 0 <= i < |stateMap| && 0 <= k < |stateMap[i].1| && Publishes(stateMap[i].1[k]) ==>
            ModuleSensorName(stateMap[i].0, stateMap[i].1[k]) in r.modules)
      && (forall name :: name in r.modules ==>
            (name in v.modules && r.modules[name] == v.modules[name])
            || exists i, k :: && 0 <= i < |stateMap| && 0 <= k < |stateMap[i].1| && Publishes(stateMap[i].1[k])
                              && name == ModuleSensorName(stateMap[i].0, stateMap[i].1[k])
                              && r.modules[name] == SettingsOf(stateMap[i].1[k].1))
      && (forall name :: name in v.modules
            && (forall i, k :: 0 <= i < |stateMap| && 0 <= k < |stateMap[i].1| && Publishes(stateMap[i].1[k]) ==>
                  ModuleSensorName(stateMap[i].0, stateMap[i].1[k]) != name)
            ==> name in r.modules && r.modules[name] == v.modules[name])
    decreases |stateMap|
  {
    if stateMap != [] {
      var n := |stateMap| - 1;
      var front := stateMap[..n];
      var (state, info) := stateMap[n];
      ApplyStatesSensors(v, front);
      var w := ApplyStates(v, front);
      ApplyModulesSensors(AddState(w, state), state, info);
      assert forall i :: 0 <= i < n ==> front[i] == stateMap[i];
    }
  }

  /** Module `k` of a state publishes, and no later publishing module of the
      state publishes under the same sensor name. */
  predicate LastPublisher(state: string, info: StateInfo, k: int) {
    && 0 <= k < |info| && Publishes(info[k])
    && forall j :: k < j < |info| && Publishes(info[j]) ==>
         ModuleSensorName(state, info[j]) != ModuleSensorName(state, info[k])
  }

  /** The sensor of the last module publishing under a name holds that
      module's merged settings, whatever the sensor held before. */
  lemma {:induction false} ApplyModulesLastPublisher(v: Sensors, state: string, info: StateInfo, k: int)
    requires LastPublisher(state, info, k)
    ensures var name := ModuleSensorName(state, info[k]);
      name in ApplyModules(v, state, info).modules
      && ApplyModules(v, state, info).modules[name] == SettingsOf(info[k].1)
    decreases |info|
  {
    var n := |info| - 1;
    var front := info[..n];
    if k < n {
      assert forall j :: 0 <= j < n ==> front[j] == info[j];
      assert LastPublisher(state, front, k);
      ApplyModulesLastPublisher(v, state, front, k);
    }
  }

  /** Module `k` of state `i` publishes, and no publishing module visited
      after it, in the same state or a later one, uses the same sensor name. */
  predicate LastPublisherOfRun(stateMap: StateMap, i: int, k: int) {
    && 0 <= i < |stateMap| && 0 <= k < |stateMap[i].1| && Publishes(stateMap[i].1[k])
    && (forall j :: k < j < |stateMap[i].1| && Publishes(stateMap[i].1[j]) ==>
          ModuleSensorName(stateMap[i].0, stateMap[i].1[j]) != ModuleSensorName(stateMap[i].0, stateMap[i].1[k]))
    && (forall i', j :: i < i' < |stateMap| && 0 <= j < |stateMap[i'].1| && Publishes(stateMap[i'].1[j]) ==>
          ModuleSensorName(stateMap[i'].0, stateMap[i'].1[j]) != ModuleSensorName(stateMap[i].0, stateMap[i].1[k]))
  }

  /** Over a run of states, the sensor of the last module publishing under a
      name holds that module's merged settings. */
  lemma {:induction false} ApplyStatesLastPublisher(v: Sensors, stateMap: StateMap, i: int, k: int)
    requires LastPublisherOfRun(stateMap, i, k)
    ensures var name := ModuleSensorName(stateMap[i].0, stateMap[i].1[k]);
      name in ApplyStates(v, stateMap).modules
      && ApplyStates(v, stateMap).modules[name] == SettingsOf(stateMap[i].1[k].1)
    decreases |stateMap|
  {
    var n := |stateMap| - 1;
    var front := stateMap[..n];
    var (state, info) := stateMap[n];
    var w := ApplyStates(v, front);
    if i == n {
      assert LastPublisher(state, info, k);
      ApplyModulesLastPublisher(AddState(w, state), state, info, k);
    } else {
      assert forall i' :: 0 <= i' < n ==> front[i'] == stateMap[i'];
      assert LastPublisherOfRun(front, i, k);
      ApplyStatesLastPublisher(v, front, i, k);
      var name := ModuleSensorName(stateMap[i].0, stateMap[i].1[k]);
      assert forall j :: 0 <= j < |info| && Publishes(info[j]) ==> ModuleSensorName(state, info[j]) != name;
      ApplyModulesSensors(AddState(w, state), state, info);
    }
  }

  // ---------------------------------------------------------------------
  // A hand-built sample: an Apache highstate with the three state names
  // of the highstate test, built here as a parsed tree
  // ---------------------------------------------------------------------

  /** The `pkg` module of the sample `apache` state. */
  const ApachePackages: Module :=
    ("pkg", [Mapping(map["name" := Str("apache2")]), NonMapping("installed"), Mapping(map["order" := Int(10000)])])

  /** The `service` module of the sample `apache` state. */
  const ApacheService: Module :=
    ("service", [Mapping(map["name" := Str("apache2")]), NonMapping("running"),
                 Mapping(map["enable" := Bool(true)]), Mapping(map["order" := Int(10001)])])

  /** The `apache` state of a highstate of the shape Salt reports for an
      Apache formula, with Salt's internal `__sls__` and `__env__` modules
      beside the real ones. */
  const ApacheState: StateInfo :=
    [("__sls__", [NonMapping("apache")]), ("__env__", [NonMapping("base")]), ApachePackages, ApacheService]

  const ApacheReloadState: StateInfo := [
    ("__sls__", [NonMapping("apache")]),
    ("module", [Mapping(map["name" := Str("service.reload")]), NonMapping("wait"), Mapping(map["order" := Int(10002)])])]

  const ApacheRestartState: StateInfo := [
    ("__sls__", [NonMapping("apache")]),
    ("module", [Mapping(map["name" := Str("service.restart")]), NonMapping("wait"), Mapping(map["order" := Int(10003)])])]

  /** The three states of the sample. */
  const SampleStates: StateMap :=
    [("apache", ApacheState), ("apache-reload", ApacheReloadState), ("apache-restart", ApacheRestartState)]

  /** The sample highstate: one document, one scope, three states. */
  const SampleHighstate: seq<ScopeMap> := [[("local", SampleStates)]]

  /** Unfolding steps for concrete highstates. */
  lemma SettingsOfSnoc(front: seq<Entry>, e: Entry)
    ensures SettingsOf(front + [e]) == if e.Mapping? then SettingsOf(front) + e.settings else SettingsOf(front)
  {
    assert (front + [e])[..|front|] == front;
  }

  lemma MethodOfSnoc(front: seq<Entry>, e: Entry)
    ensures MethodOf(front + [e]) == if e.NonMapping? then e.text else MethodOf(front)
  {
    assert (front + [e])[..|front|] == front;
  }

  lemma ApplyModulesSnoc(v: Sensors, state: string, front: StateInfo, m: Module)
    ensures ApplyModules(v, state, front + [m]) == ApplyModule(ApplyModules(v, state, front), state, m)
  {
    assert (front + [m])[..|front|] == front;
  }

  lemma ApplyStatesSnoc(v: Sensors, front: StateMap, s: (string, StateInfo))
    ensures ApplyStates(v, front + [s]) == ApplyState(ApplyStates(v, front), s.0, s.1)
  {
    assert (front + [s])[..|front|] == front;
  }

  /** One state changes `STATES` only by registering itself. */
  lemma ApplyStateStates(v: Sensors, state: string, info: StateInfo)
    ensures ApplyState(v, state, info).states == AddState(v, state).states
  {
    ApplyModulesKeepsStates(AddState(v, state), state, info);
  }

  /** The sample's states, in visiting order. */
  lemma SampleFlattens()
    ensures FlattenDocuments(SampleHighstate) == SampleStates
  {
    var doc := SampleHighstate[0];
    assert SampleHighstate[..0] == [] && doc[..0] == [];
    assert FlattenScopes(doc) == [] + SampleStates;
    assert FlattenDocuments(SampleHighstate) == [] + FlattenScopes(doc);
  }

  /** Applying the sample to a fresh entity registers `apache`,
      `apache-reload` and `apache-restart`, in that order. */
  lemma SampleHighstateStates()
    ensures ApplyDocuments(Sensors(None, map[]), SampleHighstate).states
            == Some(["apache", "apache-reload", "apache-restart"])
  {
    var v0 := Sensors(None, map[]);
    ApplyDocumentsFlattens(v0, SampleHighstate);
    SampleFlattens();
    var st := SampleStates;
    assert st == [] + [st[0]] + [st[1]] + [st[2]];
    ApplyStatesSnoc(v0, [], st[0]);
    var v1 := ApplyStates(v0, [] + [st[0]]);
    ApplyStateStates(v0, "apache", ApacheState);
    assert v1.states == Some(["apache"]);
    ApplyStatesSnoc(v0, [] + [st[0]], st[1]);
    var v2 := ApplyStates(v0, [] + [st[0]] + [st[1]]);
    ApplyStateStates(v1, "apache-reload", ApacheReloadState);
    assert |"apache-reload"| != |"apache"|;
    assert v2.states == Some(["apache"] + ["apache-reload"]);
    assert ["apache"] + ["apache-reload"] == ["apache", "apache-reload"];
    ApplyStatesSnoc(v0, [] + [st[0]] + [st[1]], st[2]);
    ApplyStateStates(v2, "apache-restart", ApacheRestartState);
    assert |"apache-restart"| != |"apache"| && |"apache-restart"| != |"apache-reload"|;
    assert ["apache", "apache-reload"] + ["apache-restart"] == ["apache", "apache-reload", "apache-restart"];
  }

  /** The `pkg` entries of the sample name the method `installed` and merge
      to the package name and the order. */
  lemma SamplePackageEntries()
    ensures MethodOf(ApachePackages.1) == "installed"
    ensures SettingsOf(ApachePackages.1) == map["name" := Str("apache2"), "order" := Int(10000)]
  {
    var pkg := ApachePackages.1;
    assert pkg == [] + [pkg[0]] + [pkg[1]] + [pkg[2]];
    SettingsOfSnoc([], pkg[0]);
    SettingsOfSnoc([] + [pkg[0]], pkg[1]);
    SettingsOfSnoc([] + [pkg[0]] + [pkg[1]], pkg[2]);
    MethodOfSnoc([], pkg[0]);
    MethodOfSnoc([] + [pkg[0]], pkg[1]);
    MethodOfSnoc([] + [pkg[0]] + [pkg[1]], pkg[2]);
  }

  /** The `service` entries of the sample name the method `running`. */
  lemma SampleServiceMethod()
    ensures MethodOf(ApacheService.1) == "running"
  {
    var service := ApacheService.1;
    assert service == [] + [service[0]] + [service[1]] + [service[2]] + [service[3]];
    MethodOfSnoc([] + [service[0]] + [service[1]] + [service[2]], service[3]);
    MethodOfSnoc([] + [service[0]] + [service[1]], service[2]);
    MethodOfSnoc([] + [service[0]], service[1]);
  }

  /** The `pkg` module of the sample's `apache` state is published as
      `apache.pkg.installed` with its two mappings merged; the internal
      modules before it publish nothing and the `service` module after it
      publishes under another name. */
  lemma SampleApachePackageSensor()
    ensures var r := ApplyState(Sensors(None, map[]), "apache", ApacheState);
      && "apache.pkg.installed" in r.modules
      && r.modules["apache.pkg.installed"] == map["name" := Str("apache2"), "order" := Int(10000)]
  {
    var info := ApacheState;
    var added := AddState(Sensors(None, map[]), "apache");
    SampleInternalModules(added);
    assert info[..3] == info[..2] + [ApachePackages];
    ApplyModulesSnoc(added, "apache", info[..2], ApachePackages);
    var w := ApplyModules(added, "apache", info[..3]);
    SamplePackageModule(added);
    assert info == info[..3] + [ApacheService];
    ApplyModulesSnoc(added, "apache", info[..3], ApacheService);
    SampleServiceModule(w);
  }

  /** The sample's `pkg` module publishes `apache.pkg.installed`. */
  lemma SamplePackageModule(v: Sensors)
    ensures ApplyModule(v, "apache", ApachePackages).modules
            == v.modules["apache.pkg.installed" := map["name" := Str("apache2"), "order" := Int(10000)]]
  {
    var m := ApachePackages;
    SamplePackageEntries();
    assert m.0 == "pkg" && m.0[..2][0] == 'p';
    assert !IsSaltInternal(m.0);
    assert "name" in SettingsOf(m.1);
    assert Publishes(m);
    assert ModuleSensorName("apache", ApachePackages) == "apache.pkg.installed";
  }

  /** The sample's `service` module leaves `apache.pkg.installed` alone. */
  lemma SampleServiceModule(v: Sensors)
    requires "apache.pkg.installed" in v.modules
    ensures var r := ApplyModule(v, "apache", ApacheService);
      "apache.pkg.installed" in r.modules && r.modules["apache.pkg.installed"] == v.modules["apache.pkg.installed"]
  {
    SampleServiceMethod();
    assert ModuleSensorName("apache", ApacheService) == "apache.service.running";
    assert |"apache.service.running"| != |"apache.pkg.installed"|;
  }

  /** The internal `__sls__` and `__env__` modules at the head of the sample's
      `apache` state publish nothing. */
  lemma SampleInternalModules(v: Sensors)
    ensures ApplyModules(v, "apache", ApacheState[..2]) == v
  {
    var info := ApacheState;
    assert IsSaltInternal(info[0].0) && IsSaltInternal(info[1].0);
    ApplyModulesSnoc(v, "apache", [], info[0]);
    assert [] + [info[0]] == [info[0]];
    ApplyModulesSnoc(v, "apache", [info[0]], info[1]);
    assert [info[0]] + [info[1]] == info[..2];
  }

  // ---------------------------------------------------------------------
  // The entity and the imperative fold
  // ---------------------------------------------------------------------

  /** The sensors of a Salt entity that the fold writes. */
  class SaltEntity {
    var states: Option<seq<string>>
    var moduleSensors: map<string, map<string, Value>>

    constructor ()
      ensures states == None && moduleSensors == map[]
    {
      states := None;
      moduleSensors := map[];
    }

    function View(): Sensors
      reads this
    {
      Sensors(states, moduleSensors)
    }
  }

  /** Adds `state` to the entity's `STATES` unless it is already there. */
  method AddStateSensor(state: string, entity: SaltEntity)
    modifies entity
    ensures entity.View() == AddState(old(entity.View()), state)
  {
    var states := entity.states;
    if states.None? || state !in states.value {
      var list: seq<string> := if states.None? then [] else states.value;
      list := list + [state];
      assert states.None? ==> list == [state];
      entity.states := Some(list);
    }
  }

  /** Publishes `values` as the sensor `state.moduleName.methodName`. */
  method AddModuleSensors(entity: SaltEntity, state: string, moduleName: string, methodName: string,
                          values: map<string, Value>)
    modifies entity
    ensures entity.states == old(entity.states)
    ensures entity.moduleSensors == old(entity.moduleSensors)[SensorName(state, moduleName, methodName) := values]
  {
    var sensorName := SensorName(state, moduleName, methodName);
    entity.moduleSensors := entity.moduleSensors[sensorName := values];
  }

  /** Registers `state`, then publishes one sensor per non-internal module
      that has settings. */
  method ApplyStateSensors(state: string, stateInfo: StateInfo, entity: SaltEntity)
    modifies entity
    ensures entity.View() == ApplyState(old(entity.View()), state, stateInfo)
  {
    AddStateSensor(state, entity);
    ghost var v0 := entity.View();
    for i := 0 to |stateInfo|
      invariant entity.View() == ApplyModules(v0, state, stateInfo[..i])
    {
      assert stateInfo[..i + 1][..i] == stateInfo[..i];
      var (moduleName, stateEntries) := stateInfo[i];
      if !IsSaltInternal(moduleName) {
        var methodName, moduleSettings := ReadModuleEntries(stateEntries);
        // the sensor is written once per settings key, always with the same value
        var names := moduleSettings.Keys;
        while names != {}
          invariant names <= moduleSettings.Keys
          invariant entity.View() == if names == moduleSettings.Keys then ApplyModules(v0, state, stateInfo[..i])
                                     else ApplyModules(v0, state, stateInfo[..i + 1])
          decreases names
        {
          var name :| name in names;
          AddModuleSensors(entity, state, moduleName, methodName, moduleSettings);
          names := names - {name};
        }
        assert moduleSettings.Keys == {} ==> moduleSettings == map[];
      }
    }
    assert stateInfo[..|stateInfo|] == stateInfo;
  }

  /** Applies every state of every scope of one document. */
  method ApplyStateScope(entity: SaltEntity, scopeMap: ScopeMap)
    modifies entity
    ensures entity.View() == ApplyScopes(old(entity.View()), scopeMap)
  {
    ghost var v0 := entity.View();
    for i := 0 to |scopeMap|
      invariant entity.View() == ApplyScopes(v0, scopeMap[..i])
    {
      assert scopeMap[..i + 1][..i] == scopeMap[..i];
      var stateMap := scopeMap[i].1;
      ghost var v1 := entity.View();
      for j := 0 to |stateMap|
        invariant entity.View() == ApplyStates(v1, stateMap[..j])
      {
        assert stateMap[..j + 1][..j] == stateMap[..j];
        ApplyStateSensors(stateMap[j].0, stateMap[j].1, entity);
      }
      assert stateMap[..|stateMap|] == stateMap;
    }
    assert scopeMap[..|scopeMap|] == scopeMap;
  }

  /** Applies a parsed highstate, document by document. */
  method ApplyHighstate(documents: seq<ScopeMap>, entity: SaltEntity)
    modifies entity
    ensures entity.View() == ApplyDocuments(old(entity.View()), documents)
  {
    ghost var v0 := entity.View();
    for i := 0 to |documents|
      invariant entity.View() == ApplyDocuments(v0, documents[..i])
    {
      assert documents[..i + 1][..i] == documents[..i];
      ApplyStateScope(entity, documents[i]);
    }
    assert documents[..|documents|] == documents;
  }
}
