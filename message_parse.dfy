/** Reading a location's message back. `Message` is meant to name one place in
    the arguments of a Vulkan call; this module gives the inverse of the
    rendering and so shows that two locations with the same message agree on
    everything the message prints. */
module MessageParse {
  import opened ErrorNames
  import opened Text
  import opened ErrorLocation
  import Decimal

  datatype Option<T> = None | Some(value: T)

  /** One printed level: the field's display name and its index, `NoIndex` when
      no index was printed. */
  datatype Level = Level(name: string, index: u32)

  /** A message taken apart: the entry point's name and every level, outermost first. */
  datatype Rendered = Rendered(funcName: string, levels: seq<Level>)

  function LevelOf(p: Path): Level {
    Level(FieldString(p.field), p.index)
  }

  function LevelsOf(ps: seq<Path>): seq<Level> {
    seq(|ps|, k requires 0 <= k < |ps| => LevelOf(ps[k]))
  }

  /** What a message of `loc` prints: its entry point's name, then the ancestors
      and the current level. */
  function Rendering(loc: CoreErrorLocation): Rendered {
    Rendered(ErrFuncString(loc.funcName), LevelsOf(loc.fieldPath + [loc.Current()]))
  }

  /** The index between "[" and "]": a canonical numeral below `NoIndex`. */
  function ParseIndex(s: string): (r: Option<u32>)
    ensures r.Some? ==> r.value != NoIndex && Decimal.DecimalString(r.value as nat) == s
  {
    if Decimal.IsCanonical(s) && Decimal.DigitsValue(s) < NoIndex as int then
      Decimal.DecimalStringOfValue(s);
      Some(Decimal.DigitsValue(s) as u32)
    else None
  }

  /** A level's text: a name, optionally followed by "[", an index and "]". */
  function ParseSegment(s: string): (r: Option<Level>)
    ensures r.Some? ==> '[' !in r.value.name
  {
    if '[' !in s then Some(Level(s, NoIndex))
    else
      var k := IndexOf(s, '[');
      if |s| < k + 3 || s[|s| - 1] != ']' then None
      else
        match ParseIndex(s[k + 1..|s| - 1])
        case None => None
        case Some(i) => Some(Level(s[..k], i))
  }

  function ParseLevels(parts: seq<string>): (r: Option<seq<Level>>)
    ensures r.Some? ==> |r.value| == |parts|
  {
    if parts == [] then Some([])
    else
      match (ParseSegment(parts[0]), ParseLevels(parts[1..]))
      case (Some(l), Some(ls)) => Some([l] + ls)
      case _ => None
  }

  /** A message: the entry point's name up to the first "(", then "(): ", then the
      levels separated by ".". */
  function ParseMessage(m: string): Option<Rendered> {
    if '(' !in m then None
    else
      var k := IndexOf(m, '(');
      var rest := m[k..];
      if |rest| < 4 || rest[..4] != "(): " then None
      else
        match ParseLevels(Split(rest[4..], '.'))
        case None => None
        case Some(levels) => Some(Rendered(m[..k], levels))
  }

  // ---------------------------------------------------------------------------
  // The round trip

  /** A printed level never holds the separator between levels. */
  lemma SegmentNoDot(p: Path)
    ensures '.' !in SegmentText(p)
  {
    var name := FieldString(p.field);
    if p.index != NoIndex {
      var digits := Decimal.DecimalString(p.index as nat);
      assert SegmentText(p) == name + ("[" + digits + "]");
      assert '.' !in digits by {
        assert Decimal.IsDigits(digits);
      }
    }
  }

  /** A name free of "[" followed by a present index parses back to both. */
  lemma ParseIndexed(name: string, digits: string, i: u32)
    requires '[' !in name
    requires i != NoIndex && digits == Decimal.DecimalString(i as nat)
    ensures ParseSegment(name + ("[" + digits + "]")) == Some(Level(name, i))
  {
    var s := name + ("[" + digits + "]");
    var k := |name|;
    IndexOfAfter(name, '[', digits + "]");
    assert s == name + ['['] + (digits + "]");
    assert s[..k] == name;
    assert s[k + 1..|s| - 1] == digits;
    assert s[|s| - 1] == ']';
    ParseIndexNumeral(i);
  }

  /** The numeral of a present index parses back to that index. */
  lemma ParseIndexNumeral(i: u32)
    requires i != NoIndex
    ensures |Decimal.DecimalString(i as nat)| >= 1
    ensures ParseIndex(Decimal.DecimalString(i as nat)) == Some(i)
  {
  }

  /** Parsing a printed level gives its name and index back. */
  lemma ParseSegmentText(p: Path)
    ensures ParseSegment(SegmentText(p)) == Some(LevelOf(p))
  {
    var name := FieldString(p.field);
    if p.index != NoIndex {
      assert '[' !in name;
      ParseIndexed(name, Decimal.DecimalString(p.index as nat), p.index);
    } else {
      assert SegmentText(p) == name;
    }
  }

  /** Parts that each parse as a level parse, together, as those levels in order. */
  lemma {:induction false} ParseLevelsEach(parts: seq<string>, ls: seq<Level>)
    requires |parts| == |ls|
    requires forall k | 0 <= k < |parts| :: ParseSegment(parts[k]) == Some(ls[k])
    ensures ParseLevels(parts) == Some(ls)
  {
    if parts != [] {
      ParseLevelsEach(parts[1..], ls[1..]);
      assert ls == [ls[0]] + ls[1..];
    }
  }

  lemma ParseLevelsTexts(levels: seq<Path>)
    ensures ParseLevels(Texts(levels)) == Some(LevelsOf(levels))
  {
    forall k | 0 <= k < |levels|
      ensures ParseSegment(Texts(levels)[k]) == Some(LevelsOf(levels)[k])
    {
      ParseSegmentText(levels[k]);
    }
    ParseLevelsEach(Texts(levels), LevelsOf(levels));
  }

  /** A name free of "(", then "(): ", then a body parses back when the body's
      parts parse. */
  lemma ParseFramedBody(name: Name, body: string)
    ensures ParseMessage(name + "(): " + body)
         == match ParseLevels(Split(body, '.'))
            case None => None
            case Some(ls) => Some(Rendered(name, ls))
  {
    var m := name + "(): " + body;
    IndexOfAfter(name, '(', "): " + body);
    assert m == name + ['('] + ("): " + body);
    assert m[..|name|] == name;
    var rest := m[|name|..];
    assert rest == "(): " + body;
    assert rest[..4] == "(): ";
    assert rest[4..] == body;
  }

  /** The levels joined by "." split back into their printed texts. */
  lemma SplitLevels(levels: seq<Path>)
    requires levels != []
    ensures Split(Join(Texts(levels), "."), '.') == Texts(levels)
  {
    forall k | 0 <= k < |Texts(levels)|
      ensures '.' !in Texts(levels)[k]
    {
      SegmentNoDot(levels[k]);
    }
    SplitJoin(Texts(levels), '.');
  }

  /** A name free of "(", "(): " and the levels joined by "." parse back to the
      name and the levels. */
  lemma ParseFramed(name: Name, levels: seq<Path>)
    requires levels != []
    ensures ParseMessage(name + "(): " + Join(Texts(levels), "."))
         == Some(Rendered(name, LevelsOf(levels)))
  {
    ParseFramedBody(name, Join(Texts(levels), "."));
    SplitLevels(levels);
    ParseLevelsTexts(levels);
  }

  /** Every message parses back to what it prints of its location. */
  lemma ParseMessageRoundTrip(loc: CoreErrorLocation)
    ensures ParseMessage(loc.Message()) == Some(Rendering(loc))
  {
    var levels := loc.fieldPath + [loc.Current()];
    MessageAsJoin(loc, levels);
    ParseFramed(ErrFuncString(loc.funcName), levels);
  }

  /** Two locations with the same message have the same entry point, the same
      number of ancestors, and levels with the same display names and indices. */
  lemma MessageDeterminesLevels(a: CoreErrorLocation, b: CoreErrorLocation)
    requires a.Message() == b.Message()
    ensures a.funcName == b.funcName
    ensures |a.fieldPath| == |b.fieldPath|
    ensures forall k | 0 <= k < |a.fieldPath| ::
      a.fieldPath[k].index == b.fieldPath[k].index
      && FieldString(a.fieldPath[k].field) == FieldString(b.fieldPath[k].field)
    ensures a.index == b.index && FieldString(a.fieldName) == FieldString(b.fieldName)
  {
    ParseMessageRoundTrip(a);
    ParseMessageRoundTrip(b);
    ErrFuncStringInjective(a.funcName, b.funcName);
    var la := LevelsOf(a.fieldPath + [a.Current()]);
    var lb := LevelsOf(b.fieldPath + [b.Current()]);
    assert la == lb;
    forall k | 0 <= k < |a.fieldPath|
      ensures a.fieldPath[k].index == b.fieldPath[k].index
      ensures FieldString(a.fieldPath[k].field) == FieldString(b.fieldPath[k].field)
    {
      assert la[k] == lb[k];
    }
    assert la[|a.fieldPath|] == lb[|b.fieldPath|];
  }

  /** A message determines everything it prints: two locations with the same
      message differ at most in their reference page, which is not printed. */
  lemma MessageDeterminesLocation(a: CoreErrorLocation, b: CoreErrorLocation)
    requires a.Message() == b.Message()
    ensures a.funcName == b.funcName
    ensures a.fieldPath == b.fieldPath
    ensures a.fieldName == b.fieldName && a.index == b.index
  {
    MessageDeterminesLevels(a, b);
    forall k | 0 <= k < |a.fieldPath|
      ensures a.fieldPath[k] == b.fieldPath[k]
    {
      FieldStringInjective(a.fieldPath[k].field, b.fieldPath[k].field);
    }
    FieldStringInjective(a.fieldName, b.fieldName);
  }
}
