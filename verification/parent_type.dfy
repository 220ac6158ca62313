/** `FiguraModelPart.ParentType`: the vanilla body part (or the world) a model
    part is attached to, its aliases, and the prefix resolver
    `getForString`. */
module ParentTypes {
  import Wrappers

  datatype ParentType =
    | None | Head | Body | LeftArm | RightArm | LeftLeg | RightLeg
    | LeftElytra | RightElytra | World

  /** The constants in declaration order, as `values()` lists them. */
  const Values: seq<ParentType> :=
    [None, Head, Body, LeftArm, RightArm, LeftLeg, RightLeg, LeftElytra, RightElytra, World]

  /** The position of a constant in `Values`. */
  function Ordinal(t: ParentType): (i: nat)
    ensures i < |Values| && Values[i] == t
  {
    match t
    case None => 0
    case Head => 1
    case Body => 2
    case LeftArm => 3
    case RightArm => 4
    case LeftLeg => 5
    case RightLeg => 6
    case LeftElytra => 7
    case RightElytra => 8
    case World => 9
  }

  /** `name()`. */
  function Name(t: ParentType): string {
    match t
    case None => "None"
    case Head => "Head"
    case Body => "Body"
    case LeftArm => "LeftArm"
    case RightArm => "RightArm"
    case LeftLeg => "LeftLeg"
    case RightLeg => "RightLeg"
    case LeftElytra => "LeftElytra"
    case RightElytra => "RightElytra"
    case World => "World"
  }

  /** `vanilla`: attached to a part of the vanilla player model. */
  function Vanilla(t: ParentType): (v: bool)
    ensures v <==> t != None && t != World
  {
    match t
    case None | World => false
    case _ => true
  }

  /** The alias strings the declaration passes, each one literal string. */
  function DeclaredAliases(t: ParentType): seq<string> {
    match t
    case None => ["NONE"]
    case Head => ["HEAD"]
    case Body => ["BODY"]
    case LeftArm => ["LEFT_ARM"]
    case RightArm => ["RIGHT_ARM"]
    case LeftLeg => ["LEFT_LEG"]
    case RightLeg => ["RIGHT_LEG"]
    case LeftElytra => ["LeftElytron, LEFT_ELYTRON, LEFT_ELYTRA"]
    case RightElytra => ["RightElytron, RIGHT_ELYTRON, RIGHT_ELYTRA"]
    case World => ["WORLD"]
  }

  /** `aliases`: the constant's name followed by the declared aliases. */
  function Aliases(t: ParentType): (a: seq<string>)
    ensures |a| == 1 + |DeclaredAliases(t)| && a[0] == Name(t) && a[1..] == DeclaredAliases(t)
  {
    [Name(t)] + DeclaredAliases(t)
  }

  /** The aliases as the declaration evidently means them: each name of the
      comma-separated list is an alias of its own. */
  function IntendedAliases(t: ParentType): seq<string> {
    match t
    case LeftElytra => ["LeftElytra", "LeftElytron", "LEFT_ELYTRON", "LEFT_ELYTRA"]
    case RightElytra => ["RightElytra", "RightElytron", "RIGHT_ELYTRON", "RIGHT_ELYTRA"]
    case _ => Aliases(t)
  }

  /** The alias table in use: as declared, or as intended. */
  function AliasTable(intended: bool, t: ParentType): seq<string> {
    if intended then IntendedAliases(t) else Aliases(t)
  }

  /** `s.startsWith(a)`. */
  function StartsWith(s: string, a: string): (b: bool)
    ensures b <==> a <= s
  {
    if a == [] then true
    else if s == [] then false
    else
      assert a <= s <==> a[0] == s[0] && a[1..] <= s[1..];
      a[0] == s[0] && StartsWith(s[1..], a[1..])
  }

  /** Some alias in `aliases` is a prefix of `s`. */
  function AnyPrefix(aliases: seq<string>, s: string): (b: bool)
    ensures b <==> exists k :: 0 <= k < |aliases| && aliases[k] <= s
  {
    if aliases == [] then false
    else StartsWith(s, aliases[0]) || AnyPrefix(aliases[1..], s)
  }

  /** Some alias of `t` in the chosen table is a prefix of `s`. */
  predicate Matches(intended: bool, t: ParentType, s: string) {
    AnyPrefix(AliasTable(intended, t), s)
  }

  /** `Values` lists each constant at its ordinal. */
  lemma OrdinalOfValue(i: nat)
    requires i < |Values|
    ensures Ordinal(Values[i]) == i
  {
  }

  /** `r` is the first type from position `i` of `Values` on with an alias
      that prefixes `s`, or `None` when no type from there on has one. */
  predicate FirstMatchFrom(intended: bool, s: string, i: nat, r: ParentType) {
    || (Matches(intended, r, s) && i <= Ordinal(r)
        && forall t :: i <= Ordinal(t) < Ordinal(r) ==> !Matches(intended, t, s))
    || (r == None && forall t :: i <= Ordinal(t) ==> !Matches(intended, t, s))
  }

  /** The resolver's loop from position `i` of `Values`. */
  function ResolveFrom(intended: bool, s: string, i: nat): (r: ParentType)
    requires i <= |Values|
    ensures FirstMatchFrom(intended, s, i, r)
    decreases |Values| - i
  {
    if i == |Values| then None
    else if Matches(intended, Values[i], s) then
      OrdinalOfValue(i);
      Values[i]
    else
      var r := ResolveFrom(intended, s, i + 1);
      FirstMatchStep(intended, s, i, r);
      r
  }

  /** Skipping a type that does not match keeps the first match. */
  lemma FirstMatchStep(intended: bool, s: string, i: nat, r: ParentType)
    requires i < |Values| && !Matches(intended, Values[i], s)
    requires FirstMatchFrom(intended, s, i + 1, r)
    ensures FirstMatchFrom(intended, s, i, r)
  {
    forall t | Ordinal(t) == i
      ensures !Matches(intended, t, s)
    {
      assert t == Values[i];
    }
  }

  /** `getForString(str)` over the chosen alias table: the first type in
      declaration order one of whose aliases is a prefix of `str`; `None` for
      null or when nothing matches. */
  function Resolve(intended: bool, str: Wrappers.Option<string>): (r: ParentType)
    ensures str.None? ==> r == None
    ensures str.Some? ==>
      || (Matches(intended, r, str.value)
          && forall t :: Ordinal(t) < Ordinal(r) ==> !Matches(intended, t, str.value))
      || (r == None && forall t :: !Matches(intended, t, str.value))
  {
    if str.None? then None else ResolveFrom(intended, str.value, 0)
  }

  /** `getForString` as declared. */
  function GetForString(str: Wrappers.Option<string>): ParentType {
    Resolve(false, str)
  }

  /** `getForString` with the intended alias table. */
  function GetForStringIntended(str: Wrappers.Option<string>): ParentType {
    Resolve(true, str)
  }

  /** A type that matches, with no earlier type matching, is what the
      resolver returns. */
  lemma ResolvesTo(intended: bool, s: string, t: ParentType)
    requires Matches(intended, t, s)
    requires forall u :: Ordinal(u) < Ordinal(t) ==> !Matches(intended, u, s)
    ensures Resolve(intended, Wrappers.Some(s)) == t
  {
  }

  /** As declared, each elytra alias string is one literal "A, B, C", so
      "LEFT_ELYTRA", which that string lists, does not resolve to
      `LeftElytra`. */
  lemma ElytraAliasUnresolved()
    ensures var d := DeclaredAliases(LeftElytra)[0]; |d| >= 11 && d[|d| - 11..] == "LEFT_ELYTRA"
    ensures GetForString(Wrappers.Some("LEFT_ELYTRA")) != LeftElytra
  {
    assert !Matches(false, LeftElytra, "LEFT_ELYTRA");
  }

  /** Two strings that differ at position `j` of `a` are not prefix and
      string. */
  lemma DiffersAt(a: string, s: string, j: nat)
    requires j < |a| && j < |s| && a[j] != s[j]
    ensures !(a <= s)
  {
  }

  // With the intended table, none of the types declared before LeftElytra
  // has an alias that prefixes "LEFT_ELYTRA": each alias differs from it at
  // the position given.
  lemma IntendedMissNone() ensures !Matches(true, None, "LEFT_ELYTRA") {
    assert AliasTable(true, None) == ["None", "NONE"];
    DiffersAt("None", "LEFT_ELYTRA", 0);
    DiffersAt("NONE", "LEFT_ELYTRA", 0);
  }
  lemma IntendedMissHead() ensures !Matches(true, Head, "LEFT_ELYTRA") {
    assert AliasTable(true, Head) == ["Head", "HEAD"];
    DiffersAt("Head", "LEFT_ELYTRA", 0);
    DiffersAt("HEAD", "LEFT_ELYTRA", 0);
  }
  lemma IntendedMissBody() ensures !Matches(true, Body, "LEFT_ELYTRA") {
    assert AliasTable(true, Body) == ["Body", "BODY"];
    DiffersAt("Body", "LEFT_ELYTRA", 0);
    DiffersAt("BODY", "LEFT_ELYTRA", 0);
  }
  lemma IntendedMissLeftArm() ensures !Matches(true, LeftArm, "LEFT_ELYTRA") {
    assert AliasTable(true, LeftArm) == ["LeftArm", "LEFT_ARM"];
    DiffersAt("LeftArm", "LEFT_ELYTRA", 1);
    DiffersAt("LEFT_ARM", "LEFT_ELYTRA", 5);
  }
  lemma IntendedMissRightArm() ensures !Matches(true, RightArm, "LEFT_ELYTRA") {
    assert AliasTable(true, RightArm) == ["RightArm", "RIGHT_ARM"];
    DiffersAt("RightArm", "LEFT_ELYTRA", 0);
    DiffersAt("RIGHT_ARM", "LEFT_ELYTRA", 0);
  }
  lemma IntendedMissLeftLeg() ensures !Matches(true, LeftLeg, "LEFT_ELYTRA") {
    assert AliasTable(true, LeftLeg) == ["LeftLeg", "LEFT_LEG"];
    DiffersAt("LeftLeg", "LEFT_ELYTRA", 1);
    DiffersAt("LEFT_LEG", "LEFT_ELYTRA", 5);
  }
  lemma IntendedMissRightLeg() ensures !Matches(true, RightLeg, "LEFT_ELYTRA") {
    assert AliasTable(true, RightLeg) == ["RightLeg", "RIGHT_LEG"];
    DiffersAt("RightLeg", "LEFT_ELYTRA", 0);
    DiffersAt("RIGHT_LEG", "LEFT_ELYTRA", 0);
  }

  /** With the intended table "LEFT_ELYTRA" resolves to `LeftElytra`. */
  lemma IntendedElytraAliasResolves()
    ensures GetForStringIntended(Wrappers.Some("LEFT_ELYTRA")) == LeftElytra
  {
    forall u | Ordinal(u) < Ordinal(LeftElytra) ensures !Matches(true, u, "LEFT_ELYTRA") {
      match u
      case None => IntendedMissNone();
      case Head => IntendedMissHead();
      case Body => IntendedMissBody();
      case LeftArm => IntendedMissLeftArm();
      case RightArm => IntendedMissRightArm();
      case LeftLeg => IntendedMissLeftLeg();
      case RightLeg => IntendedMissRightLeg();
      case LeftElytra =>
      case RightElytra =>
      case World =>
    }
    assert Matches(true, LeftElytra, "LEFT_ELYTRA");
    ResolvesTo(true, "LEFT_ELYTRA", LeftElytra);
  }

  /** `ParentType.valueOf(name)`: the constant with exactly that name, or an
      IllegalArgumentException. */
  function ValueOf(name: string): (r: Wrappers.Result<ParentType>)
    ensures r.Ok? ==> Name(r.value) == name
    ensures r.Err? ==> forall t :: Name(t) != name
    ensures forall t :: Name(t) == name ==> r == Wrappers.Ok(t)
  {
    if name == "None" then Wrappers.Ok(None)
    else if name == "Head" then Wrappers.Ok(Head)
    else if name == "Body" then Wrappers.Ok(Body)
    else if name == "LeftArm" then Wrappers.Ok(LeftArm)
    else if name == "RightArm" then Wrappers.Ok(RightArm)
    else if name == "LeftLeg" then Wrappers.Ok(LeftLeg)
    else if name == "RightLeg" then Wrappers.Ok(RightLeg)
    else if name == "LeftElytra" then Wrappers.Ok(LeftElytra)
    else if name == "RightElytra" then Wrappers.Ok(RightElytra)
    else if name == "World" then Wrappers.Ok(World)
    else Wrappers.Err("No enum constant ParentType." + name)
  }
}
