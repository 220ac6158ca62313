/** The trust system: the per-setting limits `TrustContainer.Trust`, trust
    containers whose unset values come from a parent chain, and the registry
    `TrustManager` of players, groups and preset groups, with its NBT form. */
module TrustModel {
  import opened Wrappers
  import opened Nbt

  // ---------------------------------------------------------------------
  // TrustContainer.Trust
  // ---------------------------------------------------------------------

  datatype Trust =
    | InitInst | TickInst | RenderInst | MaxMem | Complexity | Particles | Sounds
    | VanillaModelEdit | NameplateEdit | OffscreenRendering

  /** `Trust.values()`, in declaration order. */
  const AllTrust: seq<Trust> :=
    [InitInst, TickInst, RenderInst, MaxMem, Complexity, Particles, Sounds,
     VanillaModelEdit, NameplateEdit, OffscreenRendering]

  /** `name()`. */
  function Name(t: Trust): string {
    match t
    case InitInst => "INIT_INST"
    case TickInst => "TICK_INST"
    case RenderInst => "RENDER_INST"
    case MaxMem => "MAX_MEM"
    case Complexity => "COMPLEXITY"
    case Particles => "PARTICLES"
    case Sounds => "SOUNDS"
    case VanillaModelEdit => "VANILLA_MODEL_EDIT"
    case NameplateEdit => "NAMEPLATE_EDIT"
    case OffscreenRendering => "OFFSCREEN_RENDERING"
  }

  /** `min`: the lower slider bound, null for a toggle. */
  function MinOf(t: Trust): Option<int> {
    match t
    case VanillaModelEdit | NameplateEdit | OffscreenRendering => None
    case _ => Some(0)
  }

  /** `max`: the upper slider bound, null for a toggle. */
  function MaxOf(t: Trust): Option<int> {
    match t
    case InitInst => Some(32767)
    case TickInst => Some(16383)
    case RenderInst => Some(16383)
    case MaxMem => Some(2047)
    case Complexity => Some(12287)
    case Particles => Some(63)
    case Sounds => Some(63)
    case VanillaModelEdit | NameplateEdit | OffscreenRendering => None
  }

  /** `isToggle`, as the constructor sets it. */
  function IsToggle(t: Trust): bool {
    MinOf(t).None? || MaxOf(t).None?
  }

  /** `checkInfinity(value)`. */
  function CheckInfinity(t: Trust, value: int): bool {
    MaxOf(t).Some? && value > MaxOf(t).value
  }

  /** `asBoolean(value)`. */
  function AsBoolean(value: int): bool {
    value >= 1
  }

  /** The three settings declared without bounds are exactly the toggles;
      every slider runs from 0 to a positive maximum. */
  lemma TrustKinds(t: Trust)
    ensures IsToggle(t) <==> t == VanillaModelEdit || t == NameplateEdit || t == OffscreenRendering
    ensures !IsToggle(t) ==> MinOf(t) == Some(0) && MaxOf(t).Some? && MaxOf(t).value >= 63
  {
  }

  /** A value is "infinite" exactly when it exceeds a slider's maximum, so a
      toggle never is; a value counts as on from 1 upwards. */
  lemma InfinityAndToggles(t: Trust, value: int)
    ensures CheckInfinity(t, value) <==> !IsToggle(t) && value > MaxOf(t).value
    ensures AsBoolean(value) <==> value > 0
  {
  }

  /** No two settings share a name, so a name read back from NBT designates
      one setting. */
  lemma NameInjective(t: Trust, u: Trust)
    ensures Name(t) == Name(u) ==> t == u
  {
  }

  lemma SettingsNbtAt(s: map<Trust, int>, keys: set<Trust>, t: Trust)
    ensures Name(t) in SettingsNbtOf(s, keys) <==> t in keys && t in s
    ensures t in keys && t in s ==> SettingsNbtOf(s, keys)[Name(t)] == IntTag(s[t])
  {
    if Name(t) in SettingsNbtOf(s, keys) {
      var u :| u in keys && u in s && Name(u) == Name(t);
      NameInjective(t, u);
    }
  }

  // ---------------------------------------------------------------------
  // ResourceLocation
  // ---------------------------------------------------------------------

  /** A `ResourceLocation`: a namespace and a path. The class belongs to the
      game; its constructors validate the characters and put an empty
      namespace as "minecraft". */
  datatype Id = Id(namespace: string, path: string)

  /** `toString()`. */
  function IdString(id: Id): string {
    id.namespace + ":" + id.path
  }

  predicate NamespaceChar(c: char) {
    c == '_' || c == '-' || c == '.' || ('a' <= c <= 'z') || ('0' <= c <= '9')
  }

  predicate PathChar(c: char) {
    NamespaceChar(c) || c == '/'
  }

  predicate ValidId(id: Id) {
    && id.namespace != ""
    && (forall i :: 0 <= i < |id.namespace| ==> NamespaceChar(id.namespace[i]))
    && (forall i :: 0 <= i < |id.path| ==> PathChar(id.path[i]))
  }

  /** `new ResourceLocation(namespace, path)`. */
  function MakeId(namespace: string, path: string): (r: Result<Id>)
    ensures r.Ok? ==> ValidId(r.value) && r.value.path == path
    ensures r.Ok? ==> r.value.namespace == if namespace == "" then "minecraft" else namespace
    ensures ValidId(Id(namespace, path)) ==> r == Ok(Id(namespace, path))
  {
    var ns := if namespace == "" then "minecraft" else namespace;
    if !(forall i :: 0 <= i < |ns| ==> NamespaceChar(ns[i])) then
      Err("Non [a-z0-9_.-] character in namespace of location: " + ns + ":" + path)
    else if !(forall i :: 0 <= i < |path| ==> PathChar(path[i])) then
      Err("Non [a-z0-9/._-] character in path of location: " + ns + ":" + path)
    else Ok(Id(ns, path))
  }

  /** `s.indexOf(':')`. */
  function IndexOfColon(s: string): (i: int)
    ensures i == -1 || (0 <= i < |s| && s[i] == ':')
    ensures forall j :: 0 <= j < |s| && (i == -1 || j < i) ==> s[j] != ':'
  {
    if s == [] then -1
    else if s[0] == ':' then 0
    else
      var k := IndexOfColon(s[1..]);
      if k == -1 then -1 else k + 1
  }

  /** `new ResourceLocation(s)`: the namespace is what precedes the first
      ':' (or "minecraft" when nothing does), the path what follows it. */
  function ParseId(s: string): Result<Id> {
    var i := IndexOfColon(s);
    if i >= 0 then MakeId(if i >= 1 then s[..i] else "", s[i + 1..])
    else MakeId("", s)
  }

  /** A parsed location is valid; it prints back as the text when the text
      names a namespace, and it is in "minecraft" when the text has no
      ':'. */
  lemma ParsedIdPrints(s: string)
    ensures ParseId(s).Ok? ==> ValidId(ParseId(s).value)
    ensures ParseId(s).Ok? && IndexOfColon(s) >= 1 ==> IdString(ParseId(s).value) == s
    ensures ParseId(s).Ok? && IndexOfColon(s) == -1 ==> ParseId(s).value == Id("minecraft", s)
  {
    var i := IndexOfColon(s);
    if i >= 1 {
      SplitAt(s, i);
    }
  }

  lemma SplitAt(s: string, i: nat)
    requires i < |s| && s[i] == ':'
    ensures s[..i] + ":" + s[i + 1..] == s
  {
  }

  /** Reading back the string of a valid location gives that location. */
  lemma IdRoundTrip(id: Id)
    requires ValidId(id)
    ensures ParseId(IdString(id)) == Ok(id)
  {
    var s := IdString(id);
    var n := |id.namespace|;
    assert s[n] == ':';
    forall j | 0 <= j < n ensures s[j] != ':' {
      assert s[j] == id.namespace[j] && NamespaceChar(id.namespace[j]);
    }
    assert IndexOfColon(s) == n;
    assert s[..n] == id.namespace && s[n + 1..] == id.path;
  }

  // ---------------------------------------------------------------------
  // TrustContainer
  // ---------------------------------------------------------------------

  /** What a container holds: its name, its parent and its own settings. */
  datatype Entry = Entry(name: string, parent: Option<Id>, settings: map<Trust, int>)

  /** The settings `setTrustFromNbt` reads: the value under the name of each
      setting the compound has a key for; every other key is ignored. */
  function TrustFromNbt(nbt: Compound): (s: map<Trust, int>)
    ensures forall t :: t in s <==> Name(t) in nbt
    ensures forall t :: t in s ==> s[t] == GetInt(nbt, Name(t))
  {
    map t | t in AllTrust && Name(t) in nbt :: GetInt(nbt, Name(t))
  }

  /** The settings among the first `i` of `values()` that `nbt` names. */
  function TrustFromNbtUpTo(nbt: Compound, i: nat): map<Trust, int>
    requires i <= |AllTrust|
  {
    map t | t in AllTrust[..i] && Name(t) in nbt :: GetInt(nbt, Name(t))
  }

  /** `UpToStep` on top of the settings a container already has. */
  lemma MergeUpToStep(s0: map<Trust, int>, nbt: Compound, i: nat)
    requires i < |AllTrust|
    ensures var t := AllTrust[i];
      s0 + TrustFromNbtUpTo(nbt, i + 1)
        == if Name(t) in nbt then (s0 + TrustFromNbtUpTo(nbt, i))[t := GetInt(nbt, Name(t))] else s0 + TrustFromNbtUpTo(nbt, i)
  {
    UpToStep(nbt, i);
  }

  lemma UpToStep(nbt: Compound, i: nat)
    requires i < |AllTrust|
    ensures var t := AllTrust[i];
      TrustFromNbtUpTo(nbt, i + 1)
        == if Name(t) in nbt then TrustFromNbtUpTo(nbt, i)[t := GetInt(nbt, Name(t))] else TrustFromNbtUpTo(nbt, i)
  {
    assert AllTrust[..i + 1] == AllTrust[..i] + [AllTrust[i]];
  }

  lemma UpToAll(nbt: Compound)
    ensures TrustFromNbtUpTo(nbt, |AllTrust|) == TrustFromNbt(nbt)
  {
    assert AllTrust[..|AllTrust|] == AllTrust;
  }

  /** An empty compound holds no settings. */
  lemma NoSettingsFromEmpty()
    ensures TrustFromNbt(map[]) == map[]
  {
  }

  /** The `trust` compound `writeNbt` fills: each setting as an int under its
      name. */
  function SettingsNbt(s: map<Trust, int>): Compound {
    SettingsNbtOf(s, s.Keys)
  }

  /** The settings among `keys` as `writeNbt` writes them. */
  function SettingsNbtOf(s: map<Trust, int>, keys: set<Trust>): Compound {
    map t | t in keys && t in s :: Name(t) := IntTag(s[t])
  }

  lemma SettingsNbtAdd(s: map<Trust, int>, keys: set<Trust>, t: Trust)
    requires t in s
    ensures SettingsNbtOf(s, keys + {t}) == SettingsNbtOf(s, keys)[Name(t) := IntTag(s[t])]
  {
    var a, b := SettingsNbtOf(s, keys + {t}), SettingsNbtOf(s, keys)[Name(t) := IntTag(s[t])];
    forall n | n in a ensures n in b && a[n] == b[n] {
      var u :| u in keys + {t} && u in s && Name(u) == n;
      SettingsNbtAt(s, keys + {t}, u);
      SettingsNbtAt(s, keys, u);
      NameInjective(u, t);
    }
    forall n | n in b ensures n in a {
      if n == Name(t) {
        SettingsNbtAt(s, keys + {t}, t);
      } else {
        var u :| u in keys && u in s && Name(u) == n;
        SettingsNbtAt(s, keys + {t}, u);
      }
    }
  }

  /** `nbt` with a name, a parent when there is one, and a `trust` compound
      put into it. */
  function PutFields(nbt: Compound, name: string, parent: Option<string>, trust: Compound): Compound {
    var named := nbt["name" := StringTag(name)];
    var parented := if parent.Some? then named["parent" := StringTag(parent.value)] else named;
    parented["trust" := CompoundTag(trust)]
  }

  /** The three fields read back through the compound getters. */
  lemma PutFieldsRead(name: string, parent: Option<string>, trust: Compound)
    ensures var c := PutFields(map[], name, parent, trust);
      && GetString(c, "name") == name
      && ("parent" in c <==> parent.Some?)
      && (parent.Some? ==> GetString(c, "parent") == parent.value)
      && GetCompound(c, "trust") == trust
  {
  }

  /** The parent as `writeNbt` writes it: its string form. */
  function ParentString(parent: Option<Id>): (r: Option<string>)
    ensures r.Some? <==> parent.Some?
  {
    if parent.Some? then Some(IdString(parent.value)) else None
  }

  /** `writeNbt(nbt)`: `nbt` with the name, the parent when there is one and
      the settings put into it. */
  function Written(nbt: Compound, e: Entry): Compound {
    PutFields(nbt, e.name, ParentString(e.parent), SettingsNbt(e.settings))
  }

  /** Reading back the `trust` compound that `writeNbt` writes reproduces
      the settings. */
  lemma SettingsRoundTrip(s: map<Trust, int>)
    ensures TrustFromNbt(SettingsNbt(s)) == s
  {
    var nbt := SettingsNbt(s);
    forall t ensures t in TrustFromNbt(nbt) <==> t in s {
      SettingsNbtAt(s, s.Keys, t);
    }
    forall t | t in s ensures TrustFromNbt(nbt)[t] == s[t] {
      SettingsNbtAt(s, s.Keys, t);
    }
  }

  class TrustContainer {
    const name: string
    var parentId: Option<Id>
    var settings: map<Trust, int>

    /** `TrustContainer(name, parentID, nbt)`. */
    constructor FromNbt(name: string, parentId: Option<Id>, nbt: Compound)
      ensures this.name == name && this.parentId == parentId
      ensures settings == TrustFromNbt(nbt)
    {
      this.name := name;
      this.parentId := parentId;
      settings := map[];
      new;
      SetTrustFromNbt(nbt);
    }

    /** `TrustContainer(name, parentID, trust)`: a copy of the map. */
    constructor FromMap(name: string, parentId: Option<Id>, trust: map<Trust, int>)
      ensures this.name == name && this.parentId == parentId && settings == trust
    {
      this.name := name;
      this.parentId := parentId;
      settings := trust;
    }

    /** `setTrustFromNbt(nbt)`: puts every setting `nbt` has a key for. */
    method SetTrustFromNbt(nbt: Compound)
      modifies this`settings
      ensures settings == old(settings) + TrustFromNbt(nbt)
    {
      var s0 := settings;
      var acc := s0;
      for i := 0 to |AllTrust|
        invariant acc == s0 + TrustFromNbtUpTo(nbt, i)
      {
        var setting := AllTrust[i];
        var trustName := Name(setting);
        MergeUpToStep(s0, nbt, i);
        if trustName in nbt {
          acc := acc[setting := GetInt(nbt, trustName)];
        }
      }
      UpToAll(nbt);
      settings := acc;
    }

    /** `writeNbt(nbt)`: puts the name, the parent when there is one, and a
        `trust` compound with every setting. */
    method WriteNbt(nbt: Compound) returns (out: Compound)
      ensures out == Written(nbt, Entry(name, parentId, settings))
    {
      var trust: Compound := map[];
      var rest := settings.Keys;
      while rest != {}
        invariant rest <= settings.Keys
        invariant trust == SettingsNbtOf(settings, settings.Keys - rest)
        decreases rest
      {
        var key :| key in rest;
        SettingsNbtAdd(settings, settings.Keys - rest, key);
        assert settings.Keys - (rest - {key}) == (settings.Keys - rest) + {key};
        trust := trust[Name(key) := IntTag(settings[key])];
        rest := rest - {key};
      }
      assert settings.Keys - rest == settings.Keys;
      out := nbt["name" := StringTag(name)];
      if parentId.Some? {
        out := out["parent" := StringTag(IdString(parentId.value))];
      }
      out := out["trust" := CompoundTag(trust)];
      assert out == PutFields(nbt, name, ParentString(parentId), trust);
    }
  }

  function EntryOf(c: TrustContainer): Entry
    reads c
  {
    Entry(c.name, c.parentId, c.settings)
  }

  /** The entries of a map of containers. */
  function ViewOf(m: map<Id, TrustContainer>): map<Id, Entry>
    reads m.Values
  {
    map k | k in m :: EntryOf(m[k])
  }

  /** The containers of `m` hold exactly the entries of `v`. */
  ghost predicate Views(m: map<Id, TrustContainer>, v: map<Id, Entry>)
    reads m.Values
  {
    && (forall k :: k in m <==> k in v)
    && (forall k :: k in m ==> EntryOf(m[k]) == v[k])
  }

  lemma ViewOfViews(m: map<Id, TrustContainer>)
    ensures Views(m, ViewOf(m))
  {
  }

  /** Putting a container puts its entry. */
  lemma ViewsPut(m: map<Id, TrustContainer>, v: map<Id, Entry>, k: Id, c: TrustContainer)
    requires Views(m, v)
    ensures Views(m[k := c], v[k := EntryOf(c)])
  {
  }

  /** `getGroupColor()` of a root container: the colour of its name. */
  datatype Color = Red | Green | FranPink | Aqua | White

  function ColorOf(name: string): (c: Color)
    ensures c == White <==> name != "blocked" && name != "trusted" && name != "friend" && name != "local"
  {
    if name == "blocked" then Red
    else if name == "trusted" then Green
    else if name == "friend" then FranPink
    else if name == "local" then Aqua
    else White
  }

  // ---------------------------------------------------------------------
  // Maps keyed in order, as GROUPS (a LinkedHashMap) keeps them
  // ---------------------------------------------------------------------

  /** Putting the entries in order: a later entry for a key replaces an
      earlier one. */
  function Overwrite(m: map<Id, Entry>, es: seq<(Id, Entry)>): map<Id, Entry> {
    if es == [] then m
    else Overwrite(m, es[..|es| - 1])[es[|es| - 1].0 := es[|es| - 1].1]
  }

  /** The keys of `es` not yet in `order`, appended in first-seen order:
      `put` on a LinkedHashMap keeps the position of a key it already has. */
  function AppendNew(order: seq<Id>, es: seq<(Id, Entry)>): seq<Id> {
    if es == [] then order
    else
      var before := AppendNew(order, es[..|es| - 1]);
      if es[|es| - 1].0 in before then before else before + [es[|es| - 1].0]
  }

  predicate Distinct(order: seq<Id>) {
    forall i, j :: 0 <= i < j < |order| ==> order[i] != order[j]
  }

  /** After putting `es`, a key holds the entry of the last element of `es`
      with that key, or its old entry when no element has it. */
  lemma OverwriteLast(m: map<Id, Entry>, es: seq<(Id, Entry)>, k: Id)
    ensures (exists i :: 0 <= i < |es| && es[i].0 == k) ==> k in Overwrite(m, es)
    ensures forall i :: 0 <= i < |es| && es[i].0 == k && (forall j :: i < j < |es| ==> es[j].0 != k) ==>
              Overwrite(m, es)[k] == es[i].1
    ensures (forall i :: 0 <= i < |es| ==> es[i].0 != k) ==>
              (k in Overwrite(m, es) <==> k in m) && (k in m ==> Overwrite(m, es)[k] == m[k])
  {
    if i :| 0 <= i < |es| && es[i].0 == k {
      OverwriteHas(m, es, k, i);
    }
    forall i | 0 <= i < |es| && es[i].0 == k && (forall j :: i < j < |es| ==> es[j].0 != k)
      ensures Overwrite(m, es)[k] == es[i].1
    {
      OverwriteHit(m, es, k, i);
    }
    if forall i :: 0 <= i < |es| ==> es[i].0 != k {
      OverwriteMiss(m, es, k);
    }
  }

  lemma {:induction false} OverwriteHas(m: map<Id, Entry>, es: seq<(Id, Entry)>, k: Id, i: nat)
    requires i < |es| && es[i].0 == k
    ensures k in Overwrite(m, es)
  {
    if i < |es| - 1 {
      var init := es[..|es| - 1];
      assert init[i] == es[i];
      OverwriteHas(m, init, k, i);
    }
  }

  lemma {:induction false} OverwriteHit(m: map<Id, Entry>, es: seq<(Id, Entry)>, k: Id, i: nat)
    requires i < |es| && es[i].0 == k
    requires forall j :: i < j < |es| ==> es[j].0 != k
    ensures k in Overwrite(m, es) && Overwrite(m, es)[k] == es[i].1
  {
    if i < |es| - 1 {
      var init := es[..|es| - 1];
      assert init[i] == es[i];
      forall j | i < j < |init| ensures init[j].0 != k {
        assert init[j] == es[j];
      }
      OverwriteHit(m, init, k, i);
    }
  }

  lemma {:induction false} OverwriteMiss(m: map<Id, Entry>, es: seq<(Id, Entry)>, k: Id)
    requires forall i :: 0 <= i < |es| ==> es[i].0 != k
    ensures (k in Overwrite(m, es) <==> k in m) && (k in m ==> Overwrite(m, es)[k] == m[k])
  {
    if es != [] {
      var init := es[..|es| - 1];
      forall i | 0 <= i < |init| ensures init[i].0 != k {
        assert init[i] == es[i];
      }
      OverwriteMiss(m, init, k);
    }
  }

  /** Appending keys keeps the order free of repeats and holds exactly the
      old keys and the new ones. */
  lemma {:induction false} AppendNewKeys(order: seq<Id>, es: seq<(Id, Entry)>)
    requires Distinct(order)
    ensures Distinct(AppendNew(order, es))
    ensures forall k :: k in AppendNew(order, es) <==> k in order || exists i :: 0 <= i < |es| && es[i].0 == k
    ensures |order| <= |AppendNew(order, es)| && AppendNew(order, es)[..|order|] == order
  {
    if es != [] {
      var init := es[..|es| - 1];
      AppendNewKeys(order, init);
      forall i | 0 <= i < |init| ensures init[i] == es[i] {}
    }
  }

  // ---------------------------------------------------------------------
  // Decoding containers from NBT (TrustManager.readNbt)
  // ---------------------------------------------------------------------

  /** One element of the `groups` list (`groups`) or of the `players` list:
      a group is keyed `group:<name>` and has a parent only when the compound
      has one; a player is keyed `player:<name>` and its parent is always
      parsed, from "" when the compound has none. */
  function DecodeEntry(t: Tag, groups: bool): (r: Result<(Id, Entry)>)
    ensures !t.CompoundTag? ==> r.Err?
    ensures r.Ok? ==> r.value.0 == Id(if groups then "group" else "player", r.value.1.name)
    ensures r.Ok? && !groups ==> r.value.1.parent.Some?
  {
    if !t.CompoundTag? then Err("ClassCastException")
    else
      var c := t.entries;
      var name := GetString(c, "name");
      var parent := DecodeParent(c, groups);
      if parent.Err? then Err(parent.msg)
      else
        var key := MakeId(if groups then "group" else "player", name);
        if key.Err? then Err(key.msg)
        else Ok((key.value, Entry(name, parent.value, TrustFromNbt(GetCompound(c, "trust")))))
  }

  /** The parent of a decoded entry: parsed from `parent`, which a group may
      lack. */
  function DecodeParent(c: Compound, groups: bool): Result<Option<Id>> {
    if !groups || "parent" in c then
      var parsed := ParseId(GetString(c, "parent"));
      if parsed.Err? then Err(parsed.msg) else Ok(Some(parsed.value))
    else Ok(None)
  }

  /** The entries decoded before the first element that throws, and what it
      threw. */
  datatype Decoded = Decoded(entries: seq<(Id, Entry)>, err: Option<string>)

  function DecodeAll(items: seq<Tag>, groups: bool): (d: Decoded)
    ensures |d.entries| <= |items|
  {
    if items == [] then Decoded([], None)
    else
      match DecodeEntry(items[0], groups)
      case Err(msg) => Decoded([], Some(msg))
      case Ok(e) =>
        var rest := DecodeAll(items[1..], groups);
        Decoded([e] + rest.entries, rest.err)
  }

  /** A group written by `writeNbt` with a valid name and parent decodes to
      the same key and entry. */
  lemma GroupRoundTrip(e: Entry)
    requires ValidId(Id("group", e.name))
    requires e.parent.Some? ==> ValidId(e.parent.value)
    ensures DecodeEntry(CompoundTag(Written(map[], e)), true) == Ok((Id("group", e.name), e))
  {
    var c := Written(map[], e);
    PutFieldsRead(e.name, ParentString(e.parent), SettingsNbt(e.settings));
    WrittenParentDecodes(c, e.parent);
    SettingsRoundTrip(e.settings);
    GroupKey(e.name);
    DecodeEntryOf(c, e, Id("group", e.name));
  }

  /** A parent written as its string form parses back. */
  lemma WrittenParentDecodes(c: Compound, parent: Option<Id>)
    requires "parent" in c <==> parent.Some?
    requires parent.Some? ==> GetString(c, "parent") == IdString(parent.value) && ValidId(parent.value)
    ensures DecodeParent(c, true) == Ok(parent)
  {
    if parent.Some? {
      IdRoundTrip(parent.value);
    }
  }

  lemma GroupKey(name: string)
    requires ValidId(Id("group", name))
    ensures MakeId("group", name) == Ok(Id("group", name))
  {
  }

  lemma DecodeEntryOf(c: Compound, e: Entry, key: Id)
    requires GetString(c, "name") == e.name && DecodeParent(c, true) == Ok(e.parent)
    requires MakeId("group", e.name) == Ok(key)
    requires TrustFromNbt(GetCompound(c, "trust")) == e.settings
    ensures DecodeEntry(CompoundTag(c), true) == Ok((key, e))
  {
  }

  /** A preset read by `loadDefaultGroups`: its name and its values. */
  datatype Preset = Preset(name: string, values: map<string, int>)

  /** The compound of int tags a preset's values become. */
  function PresetNbt(p: Preset): Compound {
    map k | k in p.values :: IntTag(p.values[k])
  }

  /** How many presets, from the first, have names that make valid
      locations: the loop stops at the first that throws. */
  function LoadablePresets(presets: seq<Preset>): (n: nat)
    ensures n <= |presets|
    ensures forall i :: 0 <= i < n ==> ValidId(Id("default_group", presets[i].name))
    ensures n < |presets| ==> !ValidId(Id("default_group", presets[n].name))
  {
    if presets == [] || !ValidId(Id("default_group", presets[0].name)) then 0
    else
      var n := LoadablePresets(presets[1..]);
      assert forall i :: 1 <= i < 1 + n ==> presets[i] == presets[1..][i - 1];
      1 + n
  }

  /** The `DEFAULT_GROUPS` entries of the presets: no parent, the preset's
      values. */
  function DefaultEntries(presets: seq<Preset>): (es: seq<(Id, Entry)>)
    ensures |es| == |presets|
    ensures forall i :: 0 <= i < |es| ==>
              es[i] == (Id("default_group", presets[i].name),
                        Entry(presets[i].name, None, TrustFromNbt(PresetNbt(presets[i]))))
  {
    seq(|presets|, i requires 0 <= i < |presets| =>
      (Id("default_group", presets[i].name), Entry(presets[i].name, None, TrustFromNbt(PresetNbt(presets[i])))))
  }

  /** The `GROUPS` entries of the presets: parent `default_group:<name>`,
      no settings. */
  function GroupEntries(presets: seq<Preset>): (es: seq<(Id, Entry)>)
    ensures |es| == |presets|
    ensures forall i :: 0 <= i < |es| ==>
              es[i] == (Id("group", presets[i].name),
                        Entry(presets[i].name, Some(Id("default_group", presets[i].name)), map[]))
  {
    seq(|presets|, i requires 0 <= i < |presets| =>
      (Id("group", presets[i].name), Entry(presets[i].name, Some(Id("default_group", presets[i].name)), map[])))
  }

  /** After loading presets, each loaded group `group:<n>` has parent
      `default_group:<n>` and no settings of its own, and the default group
      `default_group:<n>` has no parent. */
  lemma PresetGroupsLinked(gm: map<Id, Entry>, dm: map<Id, Entry>, presets: seq<Preset>, i: nat)
    requires i < |presets|
    ensures var n := presets[i].name;
      && Id("group", n) in Overwrite(gm, GroupEntries(presets))
      && Overwrite(gm, GroupEntries(presets))[Id("group", n)] == Entry(n, Some(Id("default_group", n)), map[])
      && Id("default_group", n) in Overwrite(dm, DefaultEntries(presets))
      && Overwrite(dm, DefaultEntries(presets))[Id("default_group", n)].parent.None?
  {
    var n := presets[i].name;
    var gs, ds := GroupEntries(presets), DefaultEntries(presets);
    var k := Id("group", n);
    // the last preset named n decides both entries
    var last := LastWithName(presets, n, i);
    forall j | last < j < |presets| ensures gs[j].0 != k && ds[j].0 != Id("default_group", n) {
      assert presets[j].name != n;
    }
    OverwriteHit(gm, gs, k, last);
    OverwriteHit(dm, ds, Id("default_group", n), last);
  }

  /** The last position, from `i` on, of a preset named `n`. */
  function LastWithName(presets: seq<Preset>, n: string, i: nat): (j: nat)
    requires i < |presets| && presets[i].name == n
    ensures i <= j < |presets| && presets[j].name == n
    ensures forall k :: j < k < |presets| ==> presets[k].name != n
    decreases |presets| - i
  {
    if exists k :: i < k < |presets| && presets[k].name == n then
      var k :| i < k < |presets| && presets[k].name == n;
      LastWithName(presets, n, k)
    else i
  }

  // ---------------------------------------------------------------------
  // Moving along the groups (increaseTrust, decreaseTrust)
  // ---------------------------------------------------------------------

  /** The position of `x` in `order`, or -1. */
  function IndexOf(order: seq<Id>, x: Id): (i: int)
    ensures -1 <= i < |order|
    ensures i >= 0 ==> order[i] == x
    ensures forall j :: 0 <= j < |order| && (i == -1 || j < i) ==> order[j] != x
  {
    if order == [] then -1
    else if order[0] == x then 0
    else
      var k := IndexOf(order[1..], x);
      if k == -1 then -1 else k + 1
  }

  /** The group right after `parent` in `order`, if there is one. */
  function NextGroup(order: seq<Id>, parent: Option<Id>): (r: Option<Id>)
    ensures r.Some? <==> parent.Some? && exists j :: 0 <= j < |order| - 1 && order[j] == parent.value
    ensures r.Some? ==> r.value in order
  {
    if parent.None? then None
    else
      var p := IndexOf(order, parent.value);
      if 0 <= p && p + 1 < |order| then Some(order[p + 1]) else None
  }

  /** The group right before `parent` in `order`, if there is one. */
  function PrevGroup(order: seq<Id>, parent: Option<Id>): (r: Option<Id>)
    ensures r.Some? <==> parent.Some? && parent.value in order && order[0] != parent.value
    ensures r.Some? ==> r.value in order
  {
    if parent.None? then None
    else
      var p := IndexOf(order, parent.value);
      if p >= 1 then Some(order[p - 1]) else None
  }

  /** Where `increaseTrust` moves a container: the next group, unless that
      is the "local" group and the container is not local. */
  function IncreaseTarget(order: seq<Id>, parent: Option<Id>, isLocal: bool): (r: Option<Id>)
    ensures r.Some? ==> r == NextGroup(order, parent)
    ensures r.Some? && r.value.path == "local" ==> isLocal
    ensures r.None? && NextGroup(order, parent).Some? ==> NextGroup(order, parent).value.path == "local" && !isLocal
  {
    var n := NextGroup(order, parent);
    if n.Some? && !(n.value.path == "local" && !isLocal) then n else None
  }

  /** In a group order without repeats, stepping up and then down, or down
      and then up, returns to the starting group. */
  lemma StepsAreInverse(order: seq<Id>, p: Id, q: Id)
    requires Distinct(order)
    ensures NextGroup(order, Some(p)) == Some(q) <==> PrevGroup(order, Some(q)) == Some(p)
  {
    var i := IndexOf(order, p);
    var j := IndexOf(order, q);
    if NextGroup(order, Some(p)) == Some(q) {
      assert order[i + 1] == q;
      assert j == i + 1;
    }
    if PrevGroup(order, Some(q)) == Some(p) {
      assert order[j - 1] == p;
      assert i == j - 1;
    }
  }

  /** A container can be moved up from every group but the last, and down
      from every group but the first. */
  lemma StepBounds(order: seq<Id>, k: nat)
    requires Distinct(order) && k < |order|
    ensures NextGroup(order, Some(order[k])) == (if k + 1 < |order| then Some(order[k + 1]) else None)
    ensures PrevGroup(order, Some(order[k])) == (if k >= 1 then Some(order[k - 1]) else None)
  {
    assert IndexOf(order, order[k]) == k;
  }

  // ---------------------------------------------------------------------
  // TrustManager
  // ---------------------------------------------------------------------

  /** A container as `TrustManager.get` finds it: an existing one, or the one
      `create(id)` makes for an id found nowhere. */
  datatype Holder = Held(c: TrustContainer) | Created(id: Id)

  function HeldSet(h: Holder): set<TrustContainer> {
    if h.Held? then {h.c} else {}
  }

  /** The parent `create` gives a player: the local group for the local
      player, the untrusted group for everyone else. */
  function CreatedParent(path: string, localUuid: string): Id {
    Id("group", if path == localUuid then "local" else "untrusted")
  }

  /** Whether a player is persisted by `writeNbt`: not the local player and
      changed from a fresh player (settings of its own, or a group other
      than untrusted); a non-local player with no settings and no parent
      throws. */
  function Persisted(e: Entry, localUuid: string): (r: Result<bool>)
    ensures r.Err? <==> e.name != localUuid && e.name != "local" && e.settings == map[] && e.parent.None?
    ensures r.Ok? ==> (r.value <==> e.name != localUuid && e.name != "local"
                                    && !(e.settings == map[] && e.parent.Some? && e.parent.value.path == "untrusted"))
  {
    if e.name == localUuid || e.name == "local" then Ok(false)
    else if e.settings != map[] then Ok(true)
    else if e.parent.None? then Err("NullPointerException")
    else Ok(e.parent.value.path != "untrusted")
  }

  /** The list tag `writeNbt` builds: typed once its first element is added. */
  function NbtList(items: seq<Tag>): Tag {
    ListTag(if items == [] then TAG_END else TAG_COMPOUND, items)
  }

  /** The compounds of the containers under `keys`, in that order. */
  function ContainerTags(m: map<Id, TrustContainer>, keys: seq<Id>): (r: seq<Tag>)
    requires forall k :: k in keys ==> k in m
    reads m.Values
    ensures |r| == |keys|
    ensures forall i :: 0 <= i < |keys| ==> r[i] == CompoundTag(Written(map[], EntryOf(m[keys[i]])))
  {
    seq(|keys|, i requires 0 <= i < |keys| reads m.Values => CompoundTag(Written(map[], EntryOf(m[keys[i]]))))
  }

  /** The compounds of the entries under `keys`, in that order. */
  function EntryTags(view: map<Id, Entry>, keys: seq<Id>): (r: seq<Tag>)
    requires forall k :: k in keys ==> k in view
    ensures |r| == |keys|
    ensures forall i :: 0 <= i < |keys| ==> r[i] == CompoundTag(Written(map[], view[keys[i]]))
  {
    seq(|keys|, i requires 0 <= i < |keys| => CompoundTag(Written(map[], view[keys[i]])))
  }

  /** Adding a key to the end adds its entry's compound to the end. */
  lemma EntryTagsStep(view: map<Id, Entry>, keys: seq<Id>, k: Id)
    requires forall j :: j in keys ==> j in view
    requires k in view
    ensures EntryTags(view, keys + [k]) == EntryTags(view, keys) + [CompoundTag(Written(map[], view[k]))]
  {
    var a, b := EntryTags(view, keys + [k]), EntryTags(view, keys) + [CompoundTag(Written(map[], view[k]))];
    forall i | 0 <= i < |a| ensures a[i] == b[i] {
      if i < |keys| {
        assert (keys + [k])[i] == keys[i];
      }
    }
  }

  /** The compounds of containers are those of their entries. */
  lemma ContainerTagsOfView(m: map<Id, TrustContainer>, keys: seq<Id>)
    requires forall k :: k in keys ==> k in m
    ensures ContainerTags(m, keys) == EntryTags(ViewOf(m), keys)
  {
  }

  /** The players loop of `writeNbt` has checked the keys `done` of `view`
      without a throw and recorded, in `order`, exactly those persisted. */
  ghost predicate Scanned(view: map<Id, Entry>, done: set<Id>, order: seq<Id>, localUuid: string) {
    && done <= view.Keys
    && Distinct(order)
    && (forall k :: k in order ==> k in done)
    && (forall k :: k in done ==> Persisted(view[k], localUuid).Ok?)
    && (forall k :: k in done ==> (k in order <==> Persisted(view[k], localUuid) == Ok(true)))
  }

  /** Checking one more key without a throw records it iff it is
      persisted. */
  lemma ScannedStep(view: map<Id, Entry>, done: set<Id>, order: seq<Id>, key: Id, localUuid: string)
    requires Scanned(view, done, order, localUuid)
    requires key in view && key !in done && Persisted(view[key], localUuid).Ok?
    ensures Scanned(view, done + {key}, if Persisted(view[key], localUuid).value then order + [key] else order, localUuid)
  {
    assert key !in order;
  }

  /** Once every key is checked, no player throws and `order` holds
      exactly the persisted ones. */
  lemma ScannedAll(m: map<Id, TrustContainer>, view: map<Id, Entry>, order: seq<Id>, localUuid: string)
    requires view == ViewOf(m) && Scanned(view, m.Keys, order, localUuid)
    ensures Distinct(order)
    ensures !exists k :: k in m && Persisted(EntryOf(m[k]), localUuid).Err?
    ensures forall k :: k in order <==> k in m && Persisted(EntryOf(m[k]), localUuid) == Ok(true)
  {
  }

  /** Adding a key to the end adds its container's compound to the end. */
  lemma ContainerTagsStep(m: map<Id, TrustContainer>, keys: seq<Id>, k: Id)
    requires forall j :: j in keys ==> j in m
    requires k in m
    ensures ContainerTags(m, keys + [k]) == ContainerTags(m, keys) + [CompoundTag(Written(map[], EntryOf(m[k])))]
  {
    var a, b := ContainerTags(m, keys + [k]), ContainerTags(m, keys) + [CompoundTag(Written(map[], EntryOf(m[k])))];
    forall i | 0 <= i < |a| ensures a[i] == b[i] {
      if i < |keys| {
        assert (keys + [k])[i] == keys[i];
      }
    }
  }

  /** The compounds of the first `i + 1` keys: those of the first `i`, then
      that of key `i`. */
  lemma ContainerTagsPrefix(m: map<Id, TrustContainer>, keys: seq<Id>, i: nat)
    requires forall k :: k in keys ==> k in m
    requires i < |keys|
    ensures ContainerTags(m, keys[..i + 1]) == ContainerTags(m, keys[..i]) + [CompoundTag(Written(map[], EntryOf(m[keys[i]])))]
  {
    assert keys[..i + 1] == keys[..i] + [keys[i]];
    ContainerTagsStep(m, keys[..i], keys[i]);
  }

  /** One more element decoded: it either throws, ending the decoding, or
      joins the entries decoded so far. */
  lemma DecodeAllStep(items: seq<Tag>, i: nat, groups: bool, done: seq<(Id, Entry)>)
    requires i < |items|
    requires var rest := DecodeAll(items[i..], groups);
      DecodeAll(items, groups) == Decoded(done + rest.entries, rest.err)
    ensures DecodeEntry(items[i], groups).Err? ==>
      DecodeAll(items, groups) == Decoded(done, Some(DecodeEntry(items[i], groups).msg))
    ensures DecodeEntry(items[i], groups).Ok? ==>
      var rest := DecodeAll(items[i + 1..], groups);
      DecodeAll(items, groups) == Decoded(done + [DecodeEntry(items[i], groups).value] + rest.entries, rest.err)
  {
    var tail := items[i..];
    assert tail[0] == items[i] && tail[1..] == items[i + 1..];
    match DecodeEntry(items[i], groups)
    case Err(msg) =>
      assert DecodeAll(tail, groups) == Decoded([], Some(msg));
      assert done + [] == done;
    case Ok(e) =>
      var rest := DecodeAll(items[i + 1..], groups);
      assert DecodeAll(tail, groups) == Decoded([e] + rest.entries, rest.err);
      ConsAssoc(done, e, rest.entries);
  }

  lemma ConsAssoc<T>(a: seq<T>, x: T, b: seq<T>)
    ensures a + ([x] + b) == a + [x] + b
  {
  }

  lemma OverwriteStep(m: map<Id, Entry>, es: seq<(Id, Entry)>, x: (Id, Entry))
    ensures Overwrite(m, es + [x]) == Overwrite(m, es)[x.0 := x.1]
  {
    assert (es + [x])[..|es|] == es;
  }

  lemma AppendNewStep(order: seq<Id>, es: seq<(Id, Entry)>, x: (Id, Entry))
    ensures AppendNew(order, es + [x])
      == if x.0 in AppendNew(order, es) then AppendNew(order, es) else AppendNew(order, es) + [x.0]
  {
    assert (es + [x])[..|es|] == es;
  }

  /** The keys after putting `es` are the old keys and the keys of `es`. */
  lemma {:induction false} OverwriteKeys(m: map<Id, Entry>, es: seq<(Id, Entry)>)
    ensures forall k :: k in Overwrite(m, es) <==> k in m || exists i :: 0 <= i < |es| && es[i].0 == k
  {
    if es != [] {
      var init := es[..|es| - 1];
      OverwriteKeys(m, init);
      forall i | 0 <= i < |init| ensures init[i] == es[i] {}
    }
  }

  /** One more preset adds one entry to each list. */
  lemma PresetStep(presets: seq<Preset>, i: nat)
    requires i < |presets|
    ensures var n := presets[i].name;
      && DefaultEntries(presets[..i + 1]) == DefaultEntries(presets[..i])
           + [(Id("default_group", n), Entry(n, None, TrustFromNbt(PresetNbt(presets[i]))))]
      && GroupEntries(presets[..i + 1]) == GroupEntries(presets[..i])
           + [(Id("group", n), Entry(n, Some(Id("default_group", n)), map[]))]
  {
    assert presets[..i + 1] == presets[..i] + [presets[i]];
  }

  class TrustManager {
    var defaultGroups: map<Id, TrustContainer>
    var groups: map<Id, TrustContainer>
    /** The keys of `groups` in insertion order. */
    var groupOrder: seq<Id>
    var players: map<Id, TrustContainer>
    /** The local player's UUID string. */
    const localUuid: string

    ghost predicate Valid()
      reads this`groups, this`groupOrder
    {
      && Distinct(groupOrder)
      && (forall k :: k in groups <==> k in groupOrder)
    }

    constructor (localUuid: string)
      ensures Valid()
      ensures defaultGroups == map[] && groups == map[] && groupOrder == [] && players == map[]
      ensures this.localUuid == localUuid
    {
      defaultGroups, groups, groupOrder, players := map[], map[], [], map[];
      this.localUuid := localUuid;
    }

    ghost function Containers(): set<TrustContainer>
      reads this
    {
      players.Values + groups.Values + defaultGroups.Values
    }

    /** The lookup of `get(id)`: players first, then groups, then the
        preset groups. */
    function Find(id: Id): (r: Option<TrustContainer>)
      reads this
      ensures r.Some? ==> r.value in Containers()
      ensures r.None? <==> id !in players && id !in groups && id !in defaultGroups
    {
      if id in players then Some(players[id])
      else if id in groups then Some(groups[id])
      else if id in defaultGroups then Some(defaultGroups[id])
      else None
    }

    /** The container `get(id)` yields, existing or created. */
    function Resolve(id: Id): (h: Holder)
      reads this
      ensures HeldSet(h) <= Containers()
    {
      match Find(id)
      case Some(c) => Held(c)
      case None => Created(id)
    }

    function HName(h: Holder): string
      reads HeldSet(h)
    {
      match h
      case Held(c) => c.name
      case Created(id) => id.path
    }

    function HParent(h: Holder): Option<Id>
      reads this, HeldSet(h)
    {
      match h
      case Held(c) => c.parentId
      case Created(id) => Some(CreatedParent(id.path, localUuid))
    }

    function HSettings(h: Holder): map<Trust, int>
      reads HeldSet(h)
    {
      match h
      case Held(c) => c.settings
      case Created(_) => map[]
    }

    /** `get(trust)` of a container: its own setting, else its parent's,
        else -1 when it has no parent. `None` when the chain of parents does
        not end within `fuel` steps. */
    function Setting(h: Holder, t: Trust, fuel: nat): Option<int>
      reads this, Containers(), HeldSet(h)
      decreases fuel
    {
      var s := HSettings(h);
      if t in s then Some(s[t])
      else if HParent(h).None? then Some(-1)
      else if fuel == 0 then None
      else Setting(Resolve(HParent(h).value), t, fuel - 1)
    }

    /** `getGroupColor()`: the colour of the root of the parent chain. */
    function GroupColor(h: Holder, fuel: nat): Option<Color>
      reads this, Containers(), HeldSet(h)
      decreases fuel
    {
      if HParent(h).None? then Some(ColorOf(HName(h)))
      else if fuel == 0 then None
      else GroupColor(Resolve(HParent(h).value), fuel - 1)
    }

    /** `getParentGroup()`: follows the parents while they are groups. */
    function ParentGroup(h: Holder, fuel: nat): Option<Holder>
      reads this, Containers(), HeldSet(h)
      decreases fuel
    {
      if HParent(h).None? || HParent(h).value.namespace != "group" then Some(h)
      else if fuel == 0 then None
      else ParentGroup(Resolve(HParent(h).value), fuel - 1)
    }

    /** A lookup that ends within some fuel ends with the same value given
        more. */
    lemma {:induction false} SettingFuelMonotone(h: Holder, t: Trust, f: nat, g: nat)
      requires f <= g && Setting(h, t, f).Some?
      ensures Setting(h, t, g) == Setting(h, t, f)
      decreases f
    {
      if t !in HSettings(h) && HParent(h).Some? {
        SettingFuelMonotone(Resolve(HParent(h).value), t, f - 1, g - 1);
      }
    }

    /** `getParentGroup()` returns a container that is not itself attached
        to a group, reached through group parents only. */
    lemma {:induction false} ParentGroupIsRoot(h: Holder, fuel: nat)
      requires ParentGroup(h, fuel).Some?
      ensures var g := ParentGroup(h, fuel).value;
        HParent(g).None? || HParent(g).value.namespace != "group"
      decreases fuel
    {
      if !(HParent(h).None? || HParent(h).value.namespace != "group") {
        ParentGroupIsRoot(Resolve(HParent(h).value), fuel - 1);
      }
    }

    /** A player without a setting of its own, in a group made from a preset
        (no settings, parent the preset's default group), gets the preset's
        value, or -1 when the preset does not set it. */
    lemma PresetInheritance(p: TrustContainer, g: TrustContainer, d: TrustContainer,
                            n: string, t: Trust, fuel: nat)
      requires fuel >= 2 && t !in p.settings && p.parentId == Some(Id("group", n))
      requires Find(Id("group", n)) == Some(g)
      requires g.parentId == Some(Id("default_group", n)) && g.settings == map[]
      requires Find(Id("default_group", n)) == Some(d) && d.parentId.None?
      ensures Setting(Held(p), t, fuel) == Some(if t in d.settings then d.settings[t] else -1)
    {
      assert Setting(Held(p), t, fuel) == Setting(Held(g), t, fuel - 1);
      assert Setting(Held(g), t, fuel - 1) == Setting(Held(d), t, fuel - 2);
    }

    /** A container under the group made from a preset takes the colour of
        the preset's name, through its default group. */
    lemma PresetColor(p: TrustContainer, g: TrustContainer, d: TrustContainer, n: string, fuel: nat)
      requires fuel >= 2 && p.parentId == Some(Id("group", n))
      requires Find(Id("group", n)) == Some(g) && g.parentId == Some(Id("default_group", n))
      requires Find(Id("default_group", n)) == Some(d) && d.parentId.None? && d.name == n
      ensures GroupColor(Held(p), fuel) == Some(ColorOf(n))
    {
      assert GroupColor(Held(p), fuel) == GroupColor(Held(g), fuel - 1);
      assert GroupColor(Held(g), fuel - 1) == GroupColor(Held(d), fuel - 2);
    }

    /** `isLocal(trust)`. */
    function IsLocal(c: TrustContainer): bool {
      c.name == localUuid || c.name == "local"
    }

    /** `create(id)`: a new player container named after the id's path, with
        no settings, in the local or the untrusted group, put into PLAYERS. */
    method Create(id: Id) returns (c: TrustContainer)
      modifies this`players
      ensures fresh(c)
      ensures EntryOf(c) == Entry(id.path, Some(CreatedParent(id.path, localUuid)), map[])
      ensures players == old(players)[id := c]
    {
      var parentId := Id("group", if id.path == localUuid then "local" else "untrusted");
      c := new TrustContainer.FromMap(id.path, Some(parentId), map[]);
      players := players[id := c];
    }

    /** `get(id)`: the container registered under `id`, or a new one that
        is registered as a player; a second call finds the same one. */
    method Get(id: Id) returns (c: TrustContainer)
      modifies this`players
      ensures old(Find(id)).Some? ==> c == old(Find(id)).value && players == old(players)
      ensures old(Find(id)).None? ==>
        && fresh(c) && players == old(players)[id := c]
        && EntryOf(c) == Entry(id.path, Some(CreatedParent(id.path, localUuid)), map[])
      ensures Find(id) == Some(c)
    {
      if id in players {
        return players[id];
      }
      if id in groups {
        return groups[id];
      }
      if id in defaultGroups {
        return defaultGroups[id];
      }
      c := Create(id);
    }

    /** `increaseTrust(tc)`: moves the container to the next group. */
    method IncreaseTrust(tc: TrustContainer) returns (ok: bool)
      modifies tc`parentId
      ensures var target := IncreaseTarget(groupOrder, old(tc.parentId), IsLocal(tc));
        && (ok <==> target.Some?)
        && tc.parentId == (if ok then target else old(tc.parentId))
    {
      var parentId := tc.parentId;
      var i := 0;
      var nextId: Option<Id> := None;
      while i < |groupOrder|
        invariant 0 <= i <= |groupOrder|
        invariant nextId.None? ==> forall j :: 0 <= j < i ==> Some(groupOrder[j]) != parentId
        invariant nextId.Some? ==> i >= 1 && parentId == Some(groupOrder[i - 1])
                                   && IndexOf(groupOrder, groupOrder[i - 1]) == i - 1
      {
        var key := groupOrder[i];
        if nextId.Some? {
          nextId := Some(key);
          break;
        }
        if Some(key) == parentId {
          nextId := Some(key);
        }
        i := i + 1;
      }
      if nextId.None? || (nextId.value.path == "local" && !IsLocal(tc)) || i == |groupOrder| {
        return false;
      }
      tc.parentId := nextId;
      ok := true;
    }

    /** `decreaseTrust(tc)`: moves the container to the previous group. */
    method DecreaseTrust(tc: TrustContainer) returns (ok: bool)
      modifies tc`parentId
      ensures var target := PrevGroup(groupOrder, old(tc.parentId));
        && (ok <==> target.Some?)
        && tc.parentId == (if ok then target else old(tc.parentId))
    {
      var parentId := tc.parentId;
      var i := 0;
      var prevId: Option<Id> := None;
      while i < |groupOrder|
        invariant 0 <= i <= |groupOrder|
        invariant forall j :: 0 <= j < i ==> Some(groupOrder[j]) != parentId
        invariant prevId == (if i == 0 then None else Some(groupOrder[i - 1]))
      {
        if Some(groupOrder[i]) == parentId {
          break;
        }
        prevId := Some(groupOrder[i]);
        i := i + 1;
      }
      if prevId.None? || i == |groupOrder| {
        return false;
      }
      tc.parentId := prevId;
      ok := true;
    }

    /** The groups loop of `writeNbt`: each group's compound, in insertion
        order. */
    method WriteGroups() returns (groupList: seq<Tag>)
      requires Valid()
      ensures groupList == ContainerTags(groups, groupOrder)
    {
      var order, gs := groupOrder, groups;
      groupList := [];
      for i := 0 to |order|
        invariant groupList == ContainerTags(gs, order[..i])
      {
        var container := gs[order[i]].WriteNbt(map[]);
        ContainerTagsPrefix(gs, order, i);
        groupList := groupList + [CompoundTag(container)];
      }
      assert order[..|order|] == order;
    }

    /** The players loop of `writeNbt`: the compound of every persisted
        player, in the map's iteration order (recorded in `order`); a player
        whose check throws ends the write. */
    method WritePlayers() returns (r: Result<seq<Tag>>, ghost order: seq<Id>)
      ensures r.Err? <==> exists k :: k in players && Persisted(EntryOf(players[k]), localUuid).Err?
      ensures r.Ok? ==>
        && Distinct(order)
        && (forall k :: k in order <==> k in players && Persisted(EntryOf(players[k]), localUuid) == Ok(true))
        && r.value == ContainerTags(players, order)
    {
      ghost var view := ViewOf(players);
      var playerList: seq<Tag> := [];
      order := [];
      var rest := players.Keys;
      ghost var done: set<Id> := {};
      while rest != {}
        invariant rest <= players.Keys && done == view.Keys - rest
        invariant ViewOf(players) == view
        invariant Scanned(view, done, order, localUuid)
        invariant playerList == EntryTags(view, order)
        decreases rest
      {
        var key :| key in rest;
        var trust := players[key];
        var persisted := Persisted(EntryOf(trust), localUuid);
        if persisted.Err? {
          assert key in players && Persisted(EntryOf(players[key]), localUuid).Err?;
          return Err(persisted.msg), order;
        }
        ScannedStep(view, done, order, key, localUuid);
        if persisted.value {
          var container := trust.WriteNbt(map[]);
          EntryTagsStep(view, order, key);
          playerList := playerList + [CompoundTag(container)];
          order := order + [key];
        }
        rest := rest - {key};
        done := done + {key};
      }
      ScannedAll(players, view, order, localUuid);
      ContainerTagsOfView(players, order);
      r := Ok(playerList);
    }

    /** `writeNbt(nbt)`: every group in insertion order, and the persisted
        players in the map's iteration order, recorded in `order`. */
    method WriteNbt(nbt: Compound) returns (r: Result<Compound>, ghost order: seq<Id>)
      requires Valid()
      ensures r.Err? <==> exists k :: k in players && Persisted(EntryOf(players[k]), localUuid).Err?
      ensures r.Ok? ==>
        && Distinct(order)
        && (forall k :: k in order <==> k in players && Persisted(EntryOf(players[k]), localUuid) == Ok(true))
        && r.value == nbt["groups" := NbtList(ContainerTags(groups, groupOrder))]
                         ["players" := NbtList(ContainerTags(players, order))]
    {
      var groupList := WriteGroups();
      var playerList;
      playerList, order := WritePlayers();
      if playerList.Err? {
        return Err(playerList.msg), order;
      }
      r := Ok(nbt["groups" := NbtList(groupList)]["players" := NbtList(playerList.value)]);
    }

    /** The body of `readNbt`'s loop for one element: decodes it and makes
        a new container for it. */
    method ReadEntry(t: Tag, groups: bool) returns (r: Result<(Id, TrustContainer)>)
      ensures r.Err? <==> DecodeEntry(t, groups).Err?
      ensures r.Err? ==> r.msg == DecodeEntry(t, groups).msg
      ensures r.Ok? ==> fresh(r.value.1) && DecodeEntry(t, groups) == Ok((r.value.0, EntryOf(r.value.1)))
    {
      if !t.CompoundTag? {
        return Err("ClassCastException");
      }
      var compound := t.entries;
      var name := GetString(compound, "name");
      var parentId: Option<Id> := None;
      if !groups || "parent" in compound {
        var parsed := ParseId(GetString(compound, "parent"));
        if parsed.Err? {
          return Err(parsed.msg);
        }
        parentId := Some(parsed.value);
      }
      var key := MakeId(if groups then "group" else "player", name);
      if key.Err? {
        return Err(key.msg);
      }
      var c := new TrustContainer.FromNbt(name, parentId, GetCompound(compound, "trust"));
      r := Ok((key.value, c));
    }

    /** The loop of `readNbt` over one list: decodes each element and puts
        a new container for it, keeping `order` as a LinkedHashMap keeps its
        keys, until an element throws. */
    method ReadList(m: map<Id, TrustContainer>, ghost view: map<Id, Entry>, order: seq<Id>, items: seq<Tag>, groups: bool)
      returns (m': map<Id, TrustContainer>, order': seq<Id>, err: Option<string>)
      requires Views(m, view)
      ensures var d := DecodeAll(items, groups);
        && Views(m', Overwrite(view, d.entries))
        && order' == AppendNew(order, d.entries)
        && err == d.err
    {
      m', order' := m, order;
      ghost var done: seq<(Id, Entry)> := [];
      var i := 0;
      while i < |items|
        invariant 0 <= i <= |items|
        invariant var rest := DecodeAll(items[i..], groups);
          DecodeAll(items, groups) == Decoded(done + rest.entries, rest.err)
        invariant Views(m', Overwrite(view, done))
        invariant order' == AppendNew(order, done)
      {
        DecodeAllStep(items, i, groups, done);
        var entry := ReadEntry(items[i], groups);
        if entry.Err? {
          return m', order', Some(entry.msg);
        }
        var (key, c) := entry.value;
        ViewsPut(m', Overwrite(view, done), key, c);
        OverwriteStep(view, done, (key, EntryOf(c)));
        AppendNewStep(order, done, (key, EntryOf(c)));
        if key !in order' {
          order' := order' + [key];
        }
        m' := m'[key := c];
        done := done + [(key, EntryOf(c))];
        i := i + 1;
      }
      assert items[i..] == [];
      assert done + [] == done;
      err := None;
    }

    /** The players part of `readNbt`: a player's key is
        `player:<name>`, and the order of the players map is not kept;
        `view` is what the players held before. */
    method ReadPlayers(items: seq<Tag>, ghost view: map<Id, Entry>) returns (err: Option<string>)
      requires Views(players, view)
      modifies this`players
      ensures var p := DecodeAll(items, false);
        Views(players, Overwrite(view, p.entries)) && err == p.err
    {
      var order;
      players, order, err := ReadList(players, view, [], items, false);
    }

    /** The groups part of `readNbt`: a group's key is `group:<name>`, and
        the groups keep the order they are first put in; `view` is what the
        groups held before. */
    method ReadGroups(items: seq<Tag>, ghost view: map<Id, Entry>) returns (err: Option<string>)
      requires Valid() && Views(groups, view)
      modifies this`groups, this`groupOrder
      ensures Valid()
      ensures var g := DecodeAll(items, true);
        && Views(groups, Overwrite(view, g.entries))
        && groupOrder == AppendNew(old(groupOrder), g.entries)
        && err == g.err
    {
      ghost var g := DecodeAll(items, true);
      AppendNewKeys(groupOrder, g.entries);
      OverwriteKeys(view, g.entries);
      assert forall k :: k in groups <==> k in view;
      groups, groupOrder, err := ReadList(groups, view, groupOrder, items, true);
    }

    /** `readNbt(nbt)`: puts the groups, then the players, of `nbt`; an
        element that throws ends the read, keeping what was put before it. */
    method ReadNbt(nbt: Compound) returns (err: Option<string>)
      requires Valid()
      modifies this`groups, this`groupOrder, this`players
      ensures Valid()
      ensures defaultGroups == old(defaultGroups)
      ensures var g := DecodeAll(GetList(nbt, "groups", TAG_COMPOUND).items, true);
        && Views(groups, Overwrite(old(ViewOf(groups)), g.entries))
        && groupOrder == AppendNew(old(groupOrder), g.entries)
        && (g.err.Some? ==> err == g.err && players == old(players))
        && (g.err.None? ==>
              var p := DecodeAll(GetList(nbt, "players", TAG_COMPOUND).items, false);
              Views(players, Overwrite(old(ViewOf(players)), p.entries)) && err == p.err)
    {
      var groupItems := GetList(nbt, "groups", TAG_COMPOUND).items;
      var playerItems := GetList(nbt, "players", TAG_COMPOUND).items;
      ghost var gv, pv := ViewOf(groups), ViewOf(players);
      ViewOfViews(groups);
      ViewOfViews(players);
      err := ReadGroups(groupItems, gv);
      if err.None? {
        err := ReadPlayers(playerItems, pv);
      }
    }

    /** One preset of `loadDefaultGroups`: puts the default group
        `default_group:<name>` with the preset's values and the group
        `group:<name>` whose parent it is, unless the name is not a valid
        location. */
    method LoadPreset(p: Preset, ghost dv: map<Id, Entry>, ghost gv: map<Id, Entry>) returns (ok: bool)
      requires Valid() && Views(defaultGroups, dv) && Views(groups, gv)
      modifies this`defaultGroups, this`groups, this`groupOrder
      ensures Valid()
      ensures ok <==> ValidId(Id("default_group", p.name))
      ensures ok ==>
        && Views(defaultGroups, dv[Id("default_group", p.name) := Entry(p.name, None, TrustFromNbt(PresetNbt(p)))])
        && Views(groups, gv[Id("group", p.name) := Entry(p.name, Some(Id("default_group", p.name)), map[])])
        && groupOrder == if Id("group", p.name) in old(groupOrder) then old(groupOrder)
                         else old(groupOrder) + [Id("group", p.name)]
      ensures !ok ==> defaultGroups == old(defaultGroups) && groups == old(groups) && groupOrder == old(groupOrder)
      ensures !ok ==> Views(defaultGroups, dv) && Views(groups, gv)
    {
      var name := p.name;
      var parentId := MakeId("default_group", name);
      if parentId.Err? {
        return false;
      }
      PutDefaultGroup(name, parentId.value, PresetNbt(p), dv);
      PutGroup(name, parentId.value, gv);
      ok := true;
    }

    /** `DEFAULT_GROUPS.put(id, new TrustContainer(name, null, nbt))`. */
    method PutDefaultGroup(name: string, id: Id, nbt: Compound, ghost dv: map<Id, Entry>)
      requires Views(defaultGroups, dv)
      modifies this`defaultGroups
      ensures Views(defaultGroups, dv[id := Entry(name, None, TrustFromNbt(nbt))])
    {
      var defaultGroup := new TrustContainer.FromNbt(name, None, nbt);
      ViewsPut(defaultGroups, dv, id, defaultGroup);
      defaultGroups := defaultGroups[id := defaultGroup];
    }

    /** `GROUPS.put(group:<name>, new TrustContainer(name, parentId, empty))`:
        a new key goes to the end of the order, a known key keeps its
        place. */
    method PutGroup(name: string, parentId: Id, ghost gv: map<Id, Entry>)
      requires Valid() && Views(groups, gv)
      modifies this`groups, this`groupOrder
      ensures Valid()
      ensures Views(groups, gv[Id("group", name) := Entry(name, Some(parentId), map[])])
      ensures groupOrder == if Id("group", name) in old(groupOrder) then old(groupOrder)
                            else old(groupOrder) + [Id("group", name)]
    {
      var parent := new TrustContainer.FromNbt(name, Some(parentId), map[]);
      var groupId := Id("group", name);
      NoSettingsFromEmpty();
      ViewsPut(groups, gv, groupId, parent);
      if groupId !in groupOrder {
        groupOrder := groupOrder + [groupId];
      }
      groups := groups[groupId := parent];
    }

    /** One turn of the loop of `loadDefaultGroups`: preset `i` loaded on
        top of the maps the first `i` presets built from `d0`, `g0` and
        `o0`. */
    method LoadNext(presets: seq<Preset>, i: nat, ghost d0: map<Id, Entry>, ghost g0: map<Id, Entry>, ghost o0: seq<Id>)
      returns (ok: bool)
      requires i < |presets| && Valid()
      requires Views(defaultGroups, Overwrite(d0, DefaultEntries(presets[..i])))
      requires Views(groups, Overwrite(g0, GroupEntries(presets[..i])))
      requires groupOrder == AppendNew(o0, GroupEntries(presets[..i]))
      modifies this`defaultGroups, this`groups, this`groupOrder
      ensures Valid()
      ensures ok <==> ValidId(Id("default_group", presets[i].name))
      ensures ok ==>
        && Views(defaultGroups, Overwrite(d0, DefaultEntries(presets[..i + 1])))
        && Views(groups, Overwrite(g0, GroupEntries(presets[..i + 1])))
        && groupOrder == AppendNew(o0, GroupEntries(presets[..i + 1]))
      ensures !ok ==>
        && Views(defaultGroups, Overwrite(d0, DefaultEntries(presets[..i])))
        && Views(groups, Overwrite(g0, GroupEntries(presets[..i])))
        && groupOrder == AppendNew(o0, GroupEntries(presets[..i]))
    {
      ghost var ds, gs := DefaultEntries(presets[..i]), GroupEntries(presets[..i]);
      ok := LoadPreset(presets[i], Overwrite(d0, ds), Overwrite(g0, gs));
      if ok {
        PresetStep(presets, i);
        ghost var name := presets[i].name;
        OverwriteStep(d0, ds, (Id("default_group", name), Entry(name, None, TrustFromNbt(PresetNbt(presets[i])))));
        OverwriteStep(g0, gs, (Id("group", name), Entry(name, Some(Id("default_group", name)), map[])));
        AppendNewStep(o0, gs, (Id("group", name), Entry(name, Some(Id("default_group", name)), map[])));
      }
    }

    /** The map-building part of `loadDefaultGroups`: the presets in order;
        a name that is not a valid location ends the loading. */
    method LoadDefaultGroups(presets: seq<Preset>) returns (err: Option<string>)
      requires Valid()
      modifies this`defaultGroups, this`groups, this`groupOrder
      ensures Valid()
      ensures var n := LoadablePresets(presets);
        && Views(defaultGroups, Overwrite(old(ViewOf(defaultGroups)), DefaultEntries(presets[..n])))
        && Views(groups, Overwrite(old(ViewOf(groups)), GroupEntries(presets[..n])))
        && groupOrder == AppendNew(old(groupOrder), GroupEntries(presets[..n]))
        && (err.None? <==> n == |presets|)
    {
      ViewOfViews(defaultGroups);
      ViewOfViews(groups);
      err := LoadPresets(presets, ViewOf(defaultGroups), ViewOf(groups), groupOrder);
    }

    /** The loop of `loadDefaultGroups`, from the maps whose entries are
        `d0` and `g0` and the group order `o0`. */
    method LoadPresets(presets: seq<Preset>, ghost d0: map<Id, Entry>, ghost g0: map<Id, Entry>, ghost o0: seq<Id>)
      returns (err: Option<string>)
      requires Valid() && Views(defaultGroups, d0) && Views(groups, g0) && groupOrder == o0
      modifies this`defaultGroups, this`groups, this`groupOrder
      ensures Valid()
      ensures var n := LoadablePresets(presets);
        && Views(defaultGroups, Overwrite(d0, DefaultEntries(presets[..n])))
        && Views(groups, Overwrite(g0, GroupEntries(presets[..n])))
        && groupOrder == AppendNew(o0, GroupEntries(presets[..n]))
        && (err.None? <==> n == |presets|)
    {
      ghost var n := LoadablePresets(presets);
      assert presets[..0] == [];
      var i := 0;
      while i < |presets|
        invariant 0 <= i <= n
        invariant Valid()
        invariant Views(defaultGroups, Overwrite(d0, DefaultEntries(presets[..i])))
        invariant Views(groups, Overwrite(g0, GroupEntries(presets[..i])))
        invariant groupOrder == AppendNew(o0, GroupEntries(presets[..i]))
        modifies this`defaultGroups, this`groups, this`groupOrder
      {
        var ok := LoadNext(presets, i, d0, g0, o0);
        if !ok {
          assert i == n;
          return Some("Could not load presets from assets");
        }
        i := i + 1;
      }
      assert i == n;
      err := None;
    }
  }
}
