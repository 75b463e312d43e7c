/**
 * The animation-definition registry of the DDF reader (ddf_anim.cc): the
 * container of animation definitions, its name lookup, and the parse
 * callbacks that start an entry (new, replacing or extending), read its TYPE
 * and SEQUENCE fields, finish it, and clear the whole registry.
 *
 * Names are compared exactly (DDFCompareName is not part of this model). A
 * C string that may be null is an `Option<string>`. DDFError and
 * DDFWarnError become diagnostics appended to a log.
 */
module DdfAnim {
  import opened Wrappers

  /** The three kinds of animation. */
  datatype AnimationType = Flat | Texture | Graphic

  /** The problems the parse callbacks report. */
  datatype Diagnostic =
    | MissingName                   // new entry without a name
    | UnknownToExtend(name: string) // extending a name that is not defined
    | BadTics(speed: int)           // a speed of 0 or less
    | MissingSequence               // a graphic animation without pictures
    | UnknownType(info: string)     // a TYPE keyword that is none of the three

  /** Whether the diagnostic comes from DDFError (an error) rather than DDFWarnError (a warning). */
  predicate IsError(d: Diagnostic) {
    !d.MissingName? && !d.BadTics?
  }

  /** Everything an animation definition holds besides its name. */
  datatype Detail = Detail(animType: AnimationType, pics: seq<string>, speed: int)

  /** The detail of a fresh or reset definition: a texture animation, no pictures, 8 tics per frame. */
  const DefaultDetail := Detail(Texture, [], 8)

  /** The name given to an entry that arrives without one. */
  const NoName := "ANIM_WITH_NO_NAME"

  /** A C string that is neither null nor empty. */
  predicate NameGiven(name: Option<string>) {
    name.Some? && name.value != ""
  }

  /** The name an entry is started under. */
  function EntryName(name: Option<string>): (n: string)
    ensures n != ""
    ensures NameGiven(name) ==> n == name.value
    ensures !NameGiven(name) ==> n == NoName
  {
    if NameGiven(name) then name.value else NoName
  }

  class AnimationDefinition {
    const name: string
    var animType: AnimationType
    var pics: seq<string>
    var speed: int

    /** The definition's detail as one value. */
    function GetDetail(): Detail
      reads this
    {
      Detail(animType, pics, speed)
    }

    /**
     * A new definition with the default detail, under the name it is then
     * given (the registry never renames a definition).
     */
    constructor (name: string)
      ensures this.name == name && GetDetail() == DefaultDetail
    {
      this.name := name;
      animType := Texture;
      pics := [];
      speed := 8;
    }

    /** Reset the detail to its defaults, keeping the name. */
    method Default()
      modifies this
      ensures GetDetail() == DefaultDetail
    {
      animType := Texture;
      pics := [];
      speed := 8;
    }

    /** Copy type, pictures and speed from `src`, keeping this definition's own name. */
    method CopyDetail(src: AnimationDefinition)
      modifies this
      ensures GetDetail() == old(src.GetDetail())
    {
      animType := src.animType;
      pics := src.pics;
      speed := src.speed;
    }
  }

  /**
   * The position of the first name in `names` equal to `n`, if any.
   */
  function FirstIndex(names: seq<string>, n: string): (r: Option<nat>)
    ensures r.None? <==> n !in names
    ensures r.Some? ==> r.value < |names| && names[r.value] == n &&
                        forall j :: 0 <= j < r.value ==> names[j] != n
  {
    if |names| == 0 then None
    else if names[0] == n then Some(0)
    else match FirstIndex(names[1..], n)
      case None => None
      case Some(i) => Some(i + 1)
  }

  /** No two names are equal. */
  predicate Distinct(names: seq<string>) {
    forall i, j :: 0 <= i < j < |names| ==> names[i] != names[j]
  }

  /** In a list of distinct names, the first position of a name is its only position. */
  lemma FirstIndexUnique(names: seq<string>, i: nat)
    requires Distinct(names) && i < |names|
    ensures FirstIndex(names, names[i]) == Some(i)
  {
  }

  /** Appending a name that is not yet there keeps the names distinct. */
  lemma AppendNewName(names: seq<string>, n: string)
    requires Distinct(names) && FirstIndex(names, n).None?
    ensures Distinct(names + [n])
  {
    assert forall i :: 0 <= i < |names| ==> (names + [n])[i] == names[i];
  }

  /** A name appended to a registry that lacked it is then found, at the end. */
  lemma {:induction false} NewNameFoundLast(names: seq<string>, n: string)
    requires FirstIndex(names, n).None?
    ensures FirstIndex(names + [n], n) == Some(|names|)
  {
    if |names| > 0 {
      assert (names + [n])[1..] == names[1..] + [n];
      NewNameFoundLast(names[1..], n);
    }
  }

  class AnimationDefinitionContainer {
    var items: seq<AnimationDefinition>

    /** The names of the definitions, in order. */
    ghost function Names(): (names: seq<string>)
      reads this
      ensures |names| == |items| && forall i :: 0 <= i < |items| ==> names[i] == items[i].name
    {
      var defs := items;
      seq(|defs|, i requires 0 <= i < |defs| => defs[i].name)
    }

    constructor ()
      ensures items == []
    {
      items := [];
    }

    /**
     * Lookup: nothing for a null or empty name, otherwise the first
     * definition with that name, or nothing when there is none.
     */
    method Lookup(refname: Option<string>) returns (found: Option<AnimationDefinition>)
      ensures !NameGiven(refname) ==> found.None?
      ensures NameGiven(refname) ==>
        match FirstIndex(Names(), refname.value)
        case None => found.None?
        case Some(i) => found == Some(items[i])
    {
      found := None;
      if refname.None? || refname.value == "" {
        return;
      }
      var i := 0;
      while i < |items|
        invariant 0 <= i <= |items|
        invariant forall j :: 0 <= j < i ==> items[j].name != refname.value
      {
        if items[i].name == refname.value {
          found := Some(items[i]);
          return;
        }
        i := i + 1;
      }
    }
  }

  /**
   * The keyword of a TYPE field: FLAT, TEXTURE or GRAPHIC give their type;
   * anything else is reported and gives a flat animation.
   */
  function AnimTypeFromKeyword(info: string): (r: (AnimationType, Option<Diagnostic>))
    ensures r.1.None? <==> info in {"FLAT", "TEXTURE", "GRAPHIC"}
    ensures r.1.Some? ==> r.0 == Flat && r.1 == Some(UnknownType(info))
    ensures r.0 == Texture <==> info == "TEXTURE"
    ensures r.0 == Graphic <==> info == "GRAPHIC"
  {
    if info == "FLAT" then (Flat, None)
    else if info == "TEXTURE" then (Texture, None)
    else if info == "GRAPHIC" then (Graphic, None)
    else (Flat, Some(UnknownType(info)))
  }

  /** The keyword that names each type. */
  function Keyword(t: AnimationType): string {
    match t
    case Flat => "FLAT"
    case Texture => "TEXTURE"
    case Graphic => "GRAPHIC"
  }

  /** Every type is read back from its own keyword without a diagnostic. */
  lemma KeywordRoundTrip(t: AnimationType)
    ensures AnimTypeFromKeyword(Keyword(t)) == (t, None)
  {
  }

  /**
   * What finishing an entry does to its detail: a speed of 0 or less is
   * reported and becomes 8; a graphic animation with no pictures is
   * reported. Type and pictures are kept.
   */
  function FinishDetail(d: Detail): (r: (Detail, seq<Diagnostic>))
    ensures r.0.speed > 0 && r.0.animType == d.animType && r.0.pics == d.pics
    ensures d.speed > 0 ==> r.0.speed == d.speed
    ensures d.speed <= 0 ==> r.0.speed == 8
    ensures forall x :: x in r.1 ==> (IsError(x) <==> x == MissingSequence)
    ensures MissingSequence in r.1 <==> d.animType == Graphic && d.pics == []
    ensures BadTics(d.speed) in r.1 <==> d.speed <= 0
  {
    var speed := if d.speed <= 0 then 8 else d.speed;
    var warn := if d.speed <= 0 then [BadTics(d.speed)] else [];
    var err := if d.pics == [] && d.animType == Graphic then [MissingSequence] else [];
    (d.(speed := speed), warn + err)
  }

  /** Finishing an entry twice changes nothing more, and the second time only a missing sequence is reported. */
  lemma FinishTwice(d: Detail)
    ensures FinishDetail(FinishDetail(d).0).0 == FinishDetail(d).0
    ensures FinishDetail(FinishDetail(d).0).1 == if d.animType == Graphic && d.pics == [] then [MissingSequence] else []
  {
  }

  /**
   * The reader's state: the registry of definitions and the definition the
   * parse callbacks are working on (null before the first entry), plus the
   * log of diagnostics.
   */
  class AnimReader {
    const animdefs: AnimationDefinitionContainer
    var dynamicAnim: AnimationDefinition?
    var diagnostics: seq<Diagnostic>

    /** The registry never holds two definitions with the same name, nor one without a name. */
    ghost predicate Valid()
      reads this, animdefs
    {
      Distinct(animdefs.Names()) && "" !in animdefs.Names()
    }

    constructor ()
      ensures Valid() && fresh(animdefs) && animdefs.items == [] && dynamicAnim == null && diagnostics == []
    {
      animdefs := new AnimationDefinitionContainer();
      dynamicAnim := null;
      diagnostics := [];
    }

    /**
     * AnimStartEntry. A missing name is reported and replaced by
     * ANIM_WITH_NO_NAME. Extending selects the definition of that name and
     * reports an unknown one, changing nothing else; otherwise an existing
     * definition of that name is reset to defaults, and a new name gets a
     * new definition appended to the registry.
     */
    method StartEntry(name: Option<string>, extend: bool)
      requires Valid()
      modifies this, animdefs, animdefs.items
      ensures Valid()
      ensures var n := EntryName(name);
        var k := FirstIndex(old(animdefs.Names()), n);
        var missing := if NameGiven(name) then [] else [MissingName];
        if extend then
          animdefs.items == old(animdefs.items) &&
          (forall d :: d in animdefs.items ==> unchanged(d)) &&
          dynamicAnim == (if k.Some? then old(animdefs.items)[k.value] else null) &&
          diagnostics == old(diagnostics) + missing + (if k.None? then [UnknownToExtend(n)] else [])
        else if k.Some? then
          animdefs.items == old(animdefs.items) && dynamicAnim == old(animdefs.items)[k.value] &&
          dynamicAnim.name == n && dynamicAnim.GetDetail() == DefaultDetail &&
          (forall d :: d in animdefs.items && d != dynamicAnim ==> unchanged(d)) &&
          diagnostics == old(diagnostics) + missing
        else
          dynamicAnim != null && fresh(dynamicAnim) && animdefs.items == old(animdefs.items) + [dynamicAnim] &&
          dynamicAnim.name == n && dynamicAnim.GetDetail() == DefaultDetail &&
          (forall d :: d in old(animdefs.items) ==> unchanged(d)) &&
          diagnostics == old(diagnostics) + missing
    {
      var n := EntryName(name);
      if !NameGiven(name) {
        diagnostics := diagnostics + [MissingName];
      }
      var found := animdefs.Lookup(Some(n));
      if extend {
        dynamicAnim := if found.Some? then found.value else null;
        if found.None? {
          diagnostics := diagnostics + [UnknownToExtend(n)];
        }
        return;
      }
      if found.Some? {
        dynamicAnim := found.value;
        dynamicAnim.Default();
        return;
      }
      AddEntry(n);
    }

    /** A definition for a name not yet in the registry: created with the defaults and appended. */
    method AddEntry(n: string)
      requires Valid() && n != "" && FirstIndex(animdefs.Names(), n).None?
      modifies this`dynamicAnim, animdefs
      ensures Valid()
      ensures dynamicAnim != null && fresh(dynamicAnim) && animdefs.items == old(animdefs.items) + [dynamicAnim]
      ensures dynamicAnim.name == n && dynamicAnim.GetDetail() == DefaultDetail
    {
      ghost var names := animdefs.Names();
      var anim := new AnimationDefinition(n);
      animdefs.items := animdefs.items + [anim];
      dynamicAnim := anim;
      AppendNewName(names, n);
      assert animdefs.Names() == names + [n];
    }

    /**
     * AnimFinishEntry: the current definition's detail becomes its finished
     * detail, and the finishing diagnostics are logged.
     */
    method FinishEntry()
      requires Valid() && dynamicAnim != null
      modifies this`diagnostics, dynamicAnim
      ensures Valid()
      ensures dynamicAnim.GetDetail() == FinishDetail(old(dynamicAnim.GetDetail())).0
      ensures diagnostics == old(diagnostics) + FinishDetail(old(dynamicAnim.GetDetail())).1
    {
      ghost var d := dynamicAnim.GetDetail();
      if dynamicAnim.speed <= 0 {
        diagnostics := diagnostics + [BadTics(dynamicAnim.speed)];
        dynamicAnim.speed := 8;
      }
      ghost var warned := diagnostics;
      if dynamicAnim.pics == [] {
        if dynamicAnim.animType == Graphic {
          diagnostics := diagnostics + [MissingSequence];
        }
      }
      assert warned == old(diagnostics) + (if d.speed <= 0 then [BadTics(d.speed)] else []);
      assert diagnostics == warned + (if d.pics == [] && d.animType == Graphic then [MissingSequence] else []);
    }

    /** DDFAnimGetType applied to the current definition's type field. */
    method GetType(info: string)
      requires Valid() && dynamicAnim != null
      modifies this`diagnostics, dynamicAnim`animType
      ensures Valid()
      ensures dynamicAnim.animType == AnimTypeFromKeyword(info).0
      ensures diagnostics == old(diagnostics) +
        (if AnimTypeFromKeyword(info).1.Some? then [AnimTypeFromKeyword(info).1.value] else [])
    {
      if info == "FLAT" {
        dynamicAnim.animType := Flat;
      } else if info == "TEXTURE" {
        dynamicAnim.animType := Texture;
      } else if info == "GRAPHIC" {
        dynamicAnim.animType := Graphic;
      } else {
        diagnostics := diagnostics + [UnknownType(info)];
        dynamicAnim.animType := Flat;
      }
    }

    /** DDFAnimGetPic: each SEQUENCE entry is appended to the current definition's pictures, in order. */
    method GetPic(info: string)
      requires Valid() && dynamicAnim != null
      modifies dynamicAnim`pics
      ensures Valid()
      ensures dynamicAnim.pics == old(dynamicAnim.pics) + [info]
    {
      dynamicAnim.pics := dynamicAnim.pics + [info];
    }

    /** AnimClearAll: the registry is left empty. */
    method ClearAll()
      modifies animdefs
      ensures Valid() && animdefs.items == []
    {
      animdefs.items := [];
    }
  }
}
