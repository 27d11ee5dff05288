/** `CoreErrorLocation`: where, inside the nested arguments of a Vulkan call, a
    validation failure was found, and the text that names that place. */
module ErrorLocation {
  import opened ErrorNames
  import opened Text
  import Decimal

  /** The C++ `uint32_t` that carries an array index. */
  newtype u32 = x: int | 0 <= x < 0x1_0000_0000

  /** `kNoIndex`: the largest `uint32_t`, reserved to mean "not an array element". */
  const NoIndex: u32 := 0xFFFF_FFFF

  /** One level already descended through: a field and its optional index. */
  datatype Path = Path(field: Field, index: u32)

  /** A location: the entry point and reference page of the validation pass, the
      ancestor levels outermost first, and the innermost level being checked. */
  datatype CoreErrorLocation = CoreErrorLocation(
    funcName: ErrFunc,
    refPage: RefPage,
    fieldPath: seq<Path>,
    fieldName: Field,
    index: u32)
  {
    /** The innermost level as a segment. */
    function Current(): Path {
      Path(fieldName, index)
    }

    /** `dot`: the location one level further in. The current level moves into the
        ancestors unless it is the empty root level; the new current level is
        `(subField, subIndex)`. */
    function Dot(subField: Field, subIndex: u32 := NoIndex): (r: CoreErrorLocation)
      ensures r.funcName == funcName && r.refPage == refPage
      ensures r.fieldName == subField && r.index == subIndex
      ensures fieldName == Field.Empty ==> r.fieldPath == fieldPath
      ensures fieldName != Field.Empty ==> r.fieldPath == fieldPath + [Current()]
    {
      var path := if fieldName != Field.Empty then fieldPath + [Current()] else fieldPath;
      CoreErrorLocation(funcName, refPage, path, subField, subIndex)
    }

    /** `Message`: the entry point's name and "(): ", then each ancestor level
        followed by ".", then the current level. It begins with the entry point's
        name and "(): " and ends with the current level's text; `MessageAsJoin`
        and `MessageEndsWithDot` below say the rest. */
    function Message(): (r: string)
      ensures StringFuncName() + "(): " <= r
      ensures |r| >= |SegmentText(Current())|
      ensures r[|r| - |SegmentText(Current())|..] == SegmentText(Current())
    {
      var front := StringFuncName() + "(): " + Terminated(Texts(fieldPath), ".");
      assert (front + SegmentText(Current()))[|front|..] == SegmentText(Current());
      front + SegmentText(Current())
    }

    /** `StringFuncName`: empty exactly when no entry point is set. */
    function StringFuncName(): (r: Name)
      ensures r == "" <==> funcName == ErrFunc.Empty
    {
      ErrFuncString(funcName)
    }

    /** `StringRefPage`: empty exactly when no reference page is set. */
    function StringRefPage(): (r: string)
      ensures r == "" <==> refPage == RefPage.Empty
    {
      RefPageString(refPage)
    }

    /** `StringField`: empty exactly when the current field is `Empty`. */
    function StringField(): (r: Name)
      ensures r == "" <==> fieldName == Field.Empty
    {
      FieldString(fieldName)
    }
  }

  /** The constructor: a location with no ancestors, at field `f` (by default the
      empty root level) and index `i` (by default none). */
  function MakeLocation(func: ErrFunc, ref: RefPage, f: Field := Field.Empty, i: u32 := NoIndex): (r: CoreErrorLocation)
    ensures r.funcName == func && r.refPage == ref
    ensures r.fieldPath == []
    ensures r.fieldName == f && r.index == i
  {
    CoreErrorLocation(func, ref, [], f, i)
  }

  /** The bracketed index of a level, or nothing for `NoIndex`. */
  function IndexSuffix(i: u32): (r: string)
    ensures r == "" <==> i == NoIndex
  {
    if i == NoIndex then "" else "[" + Decimal.DecimalString(i as nat) + "]"
  }

  /** One level as `Message` prints it: the field's name and its optional index. */
  function SegmentText(p: Path): (r: string)
    ensures r == "" <==> p == Path(Field.Empty, NoIndex)
  {
    FieldString(p.field) + IndexSuffix(p.index)
  }

  /** The printed form of every level of `ps`. */
  function Texts(ps: seq<Path>): seq<string> {
    seq(|ps|, k requires 0 <= k < |ps| => SegmentText(ps[k]))
  }

  /** The levels of `ps` whose field is set: the ones `dot` keeps as ancestors. */
  function Named(ps: seq<Path>): (r: seq<Path>)
    ensures |r| <= |ps|
    ensures forall k | 0 <= k < |r| :: r[k].field != Field.Empty
  {
    if ps == [] then []
    else if ps[0].field == Field.Empty then Named(ps[1..])
    else [ps[0]] + Named(ps[1..])
  }

  /** Applies `dot` once per step, in order. */
  function DotChain(loc: CoreErrorLocation, steps: seq<Path>): (r: CoreErrorLocation)
    ensures r.funcName == loc.funcName && r.refPage == loc.refPage
    ensures steps == [] ==> r == loc
    ensures steps != [] ==> r.Current() == steps[|steps| - 1]
    decreases |steps|
  {
    if steps == [] then loc else DotChain(loc.Dot(steps[0].field, steps[0].index), steps[1..])
  }

  // ---------------------------------------------------------------------------
  // Rendering

  /** A present index prints as "[", the canonical numeral of the index, "]". */
  lemma IndexSuffixDigits(i: u32)
    requires i != NoIndex
    ensures var r := IndexSuffix(i);
      && |r| >= 3 && r[0] == '[' && r[|r| - 1] == ']'
      && Decimal.IsCanonical(r[1..|r| - 1])
      && Decimal.DigitsValue(r[1..|r| - 1]) == i as int
  {
    var digits := Decimal.DecimalString(i as nat);
    var r := IndexSuffix(i);
    assert r[1..|r| - 1] == digits;
  }

  lemma TextsSnoc(ps: seq<Path>, p: Path)
    ensures Texts(ps + [p]) == Texts(ps) + [SegmentText(p)]
  {
  }

  /** The message is the entry point's name, "(): ", and every level, ancestors
      then the current one, joined by ".". */
  lemma MessageAsJoin(loc: CoreErrorLocation, levels: seq<Path>)
    requires levels == loc.fieldPath + [loc.Current()]
    ensures loc.Message() == ErrFuncString(loc.funcName) + "(): " + Join(Texts(levels), ".")
  {
    TerminatedJoin(Texts(loc.fieldPath), SegmentText(loc.Current()), ".");
    TextsSnoc(loc.fieldPath, loc.Current());
  }

  /** Descending from a level with a field extends its message by "." and the new level. */
  lemma DotMessageExtends(loc: CoreErrorLocation, f: Field, i: u32)
    requires loc.fieldName != Field.Empty
    ensures loc.Dot(f, i).Message() == loc.Message() + "." + SegmentText(Path(f, i))
  {
    var head := ErrFuncString(loc.funcName) + "(): ";
    var ancestors := Terminated(Texts(loc.fieldPath), ".");
    var seg := SegmentText(loc.Current());
    TextsSnoc(loc.fieldPath, loc.Current());
    TerminatedSnoc(Texts(loc.fieldPath), seg, ".");
    Regroup(head, ancestors, seg, ".", SegmentText(Path(f, i)));
  }

  /** Descending from a root adds no ancestor, so no separator precedes the new level. */
  lemma RootDotMessage(func: ErrFunc, ref: RefPage, f: Field, i: u32)
    ensures MakeLocation(func, ref).Dot(f, i).fieldPath == []
    ensures MakeLocation(func, ref).Dot(f, i).Message() == ErrFuncString(func) + "(): " + SegmentText(Path(f, i))
  {
    assert Texts([]) == [];
  }

  /** After "(): ", text made of terminated parts and then a segment that does
      not end with "." ends with "." exactly when there are parts and the
      segment is empty. */
  lemma EndsWithDot(name: string, ancestors: string, seg: string)
    requires ancestors != "" ==> ancestors[|ancestors| - 1] == '.'
    requires seg != "" ==> seg[|seg| - 1] != '.'
    ensures var m := name + "(): " + ancestors + seg;
      m[|m| - 1] == '.' <==> ancestors != "" && seg == ""
  {
    var front := name + "(): " + ancestors;
    LastOf(name, "(): ");
    if seg == "" {
      assert front + seg == front;
      if ancestors != "" {
        LastOf(name + "(): ", ancestors);
      } else {
        assert front == name + "(): ";
      }
    } else {
      LastOf(front, seg);
    }
  }

  /** A level that prints something ends with "]" or with a character of its
      field's name, and so never with ".". */
  lemma SegmentLast(p: Path)
    requires SegmentText(p) != ""
    ensures var t := SegmentText(p); t[|t| - 1] != '.'
  {
    var name := FieldString(p.field);
    var suffix := IndexSuffix(p.index);
    if suffix != "" {
      LastOf(name, suffix);
    } else {
      assert SegmentText(p) == name;
      assert name[|name| - 1] in name;
    }
  }

  /** A message ends with "." exactly when the location has ancestors but an empty
      current level. */
  lemma MessageEndsWithDot(loc: CoreErrorLocation)
    ensures var m := loc.Message();
      m[|m| - 1] == '.' <==> loc.fieldPath != [] && loc.Current() == Path(Field.Empty, NoIndex)
  {
    var name := ErrFuncString(loc.funcName);
    var seg := SegmentText(loc.Current());
    TerminatedEnd(Texts(loc.fieldPath), '.');
    if seg != "" {
      SegmentLast(loc.Current());
    }
    EndsWithDot(name, Terminated(Texts(loc.fieldPath), "."), seg);
  }

  // ---------------------------------------------------------------------------
  // Chains of `dot`

  lemma {:induction false} NamedAppend(a: seq<Path>, b: seq<Path>)
    ensures Named(a + b) == Named(a) + Named(b)
  {
    if a == [] {
      assert a + b == b;
    } else {
      assert (a + b)[0] == a[0];
      assert (a + b)[1..] == a[1..] + b;
      NamedAppend(a[1..], b);
      if a[0].field != Field.Empty {
        assert Named(a + b) == [a[0]] + (Named(a[1..]) + Named(b));
      }
    }
  }

  lemma {:induction false} NamedAllNamed(ps: seq<Path>)
    requires forall k | 0 <= k < |ps| :: ps[k].field != Field.Empty
    ensures Named(ps) == ps
  {
    if ps != [] {
      NamedAllNamed(ps[1..]);
    }
  }

  /** Behind an empty level, a list of levels that all have fields is kept whole. */
  lemma NamedAfterEmpty(p: Path, ps: seq<Path>)
    requires p.field == Field.Empty
    requires forall k | 0 <= k < |ps| :: ps[k].field != Field.Empty
    ensures Named([p] + ps) == ps
  {
    assert ([p] + ps)[1..] == ps;
    NamedAllNamed(ps);
  }

  /** After a chain of `dot` calls, the ancestors are the original ancestors, then
      the original current level and every step but the last, in call order,
      skipping the levels whose field is empty. */
  lemma {:induction false} DotChainPath(loc: CoreErrorLocation, steps: seq<Path>)
    requires steps != []
    ensures DotChain(loc, steps).fieldPath == loc.fieldPath + Named([loc.Current()] + steps[..|steps| - 1])
    decreases |steps|
  {
    var c := loc.Current();
    var next := loc.Dot(steps[0].field, steps[0].index);
    var front := steps[..|steps| - 1];
    assert next.fieldPath == loc.fieldPath + Named([c]) by {
      assert [c][1..] == [];
    }
    if |steps| == 1 {
      assert [c] + front == [c];
    } else {
      var rest := steps[1..];
      assert front == [steps[0]] + rest[..|rest| - 1];
      calc {
        DotChain(loc, steps).fieldPath;
        DotChain(next, rest).fieldPath;
        { DotChainPath(next, rest); }
        next.fieldPath + Named([steps[0]] + rest[..|rest| - 1]);
        (loc.fieldPath + Named([c])) + Named(front);
        loc.fieldPath + (Named([c]) + Named(front));
        { NamedAppend([c], front); }
        loc.fieldPath + Named([c] + front);
      }
    }
  }

  /** A chain of `dot` calls whose last field is set never leaves a message
      ending with ".". (A last `dot(Field::Empty)` after a level with a field
      does: the ancestors then end with "." and the current level prints nothing.) */
  lemma DotChainNoTrailingDot(loc: CoreErrorLocation, steps: seq<Path>)
    requires steps != [] && steps[|steps| - 1].field != Field.Empty
    ensures var m := DotChain(loc, steps).Message(); m[|m| - 1] != '.'
  {
    var r := DotChain(loc, steps);
    var seg := SegmentText(r.Current());
    assert seg != "";
    SegmentLast(r.Current());
    var m := r.Message();
    assert m[|m| - 1] == seg[|seg| - 1];
  }

  /** A trailing "." is reachable by `dot`: descending into the empty field from
      a level with a field leaves a message that ends with ".". */
  lemma DotEmptyTrailingDot(loc: CoreErrorLocation)
    requires loc.fieldName != Field.Empty
    ensures var m := loc.Dot(Field.Empty).Message(); m[|m| - 1] == '.'
  {
    MessageEndsWithDot(loc.Dot(Field.Empty));
  }

  /** From a root, n >= 1 `dot` calls whose fields (all but possibly the last) are
      set leave exactly the first n - 1 arguments as ancestors, in call order. */
  lemma RootDotChainPath(func: ErrFunc, ref: RefPage, steps: seq<Path>)
    requires steps != []
    requires forall k | 0 <= k < |steps| - 1 :: steps[k].field != Field.Empty
    ensures DotChain(MakeLocation(func, ref), steps).fieldPath == steps[..|steps| - 1]
  {
    var root := MakeLocation(func, ref);
    var front := steps[..|steps| - 1];
    DotChainPath(root, steps);
    NamedAfterEmpty(root.Current(), front);
  }

  /** The message of such a chain lists every argument, in call order, joined by ".". */
  lemma RootDotChainMessage(func: ErrFunc, ref: RefPage, steps: seq<Path>)
    requires steps != []
    requires forall k | 0 <= k < |steps| - 1 :: steps[k].field != Field.Empty
    ensures DotChain(MakeLocation(func, ref), steps).Message()
         == ErrFuncString(func) + "(): " + Join(Texts(steps), ".")
  {
    var r := DotChain(MakeLocation(func, ref), steps);
    RootDotChainPath(func, ref, steps);
    FrontLast(steps);
    MessageAsJoin(r, steps);
  }

  /** The example of the header comment: barrier 42's `srcAccessMask` inside
      `vkCmdPipelineBarrier`. The reference page is not printed, so the text is
      the same for every reference page, `VkImageMemoryBarrier` and `Empty` alike. */
  lemma PipelineBarrierExample(ref: RefPage)
    ensures MakeLocation(ErrFunc.vkCmdPipelineBarrier, ref)
              .Dot(Field.pImageMemoryBarriers, 42)
              .Dot(Field.srcAccessMask)
              .Message()
         == "vkCmdPipelineBarrier" + "(): " + ("pImageMemoryBarriers" + "[42]") + "." + "srcAccessMask"
  {
    var root := MakeLocation(ErrFunc.vkCmdPipelineBarrier, ref);
    var outer := root.Dot(Field.pImageMemoryBarriers, 42);
    assert Decimal.DecimalString(4) == "4";
    assert Decimal.DecimalString(42) == "4" + "2";
    assert IndexSuffix(42) == "[42]";
    RootDotMessage(ErrFunc.vkCmdPipelineBarrier, ref, Field.pImageMemoryBarriers, 42);
    assert outer.Message() == "vkCmdPipelineBarrier" + "(): " + ("pImageMemoryBarriers" + "[42]");
    DotMessageExtends(outer, Field.srcAccessMask, NoIndex);
    assert SegmentText(Path(Field.srcAccessMask, NoIndex)) == "srcAccessMask";
  }
}
