/**
 The canonical printer whose hash decides whether a retry carries "the same request".

 Values are what JavaScript hands it, including the ones JSON cannot say: undefined, the
 non-finite numbers, and dates, which have no own enumerable keys.  The payload of a value
 is what the printer preserves of it; objects are maps there, so key order is gone.
 */
module StableStringify {
  import opened JsonText

  datatype Value =
    | Undefined
    | Null
    | Boolean(b: bool)
    | Number(n: Num)
    | NonFinite
    | Text(s: Str)
    | Date(ms: int)
    | List(items: seq<Value>)
    | Record(fields: seq<Field>)

  datatype Field = Field(key: Str, value: Value)

  datatype Payload =
    | PNull
    | PBoolean(b: bool)
    | PNumber(n: Num)
    | PText(s: Str)
    | PList(items: seq<Payload>)
    | PRecord(fields: map<Str, Payload>)

  // ---------------------------------------------------------------------------------
  // Object.keys(record).sort(): by UTF-16 code units
  // ---------------------------------------------------------------------------------

  predicate Less(a: Str, b: Str) {
    if b == [] then false
    else if a == [] then true
    else if a[0] != b[0] then a[0] < b[0]
    else Less(a[1..], b[1..])
  }

  lemma {:induction false} LessTotal(a: Str, b: Str)
    ensures a == b || Less(a, b) || Less(b, a)
    ensures !(Less(a, b) && Less(b, a)) && (a == b ==> !Less(a, b))
  {
    if a != [] && b != [] {
      LessTotal(a[1..], b[1..]);
      assert a == [a[0]] + a[1..] && b == [b[0]] + b[1..];
    }
  }

  lemma {:induction false} LessTransitive(a: Str, b: Str, c: Str)
    requires Less(a, b) && Less(b, c)
    ensures Less(a, c)
  {
    if a != [] && a[0] == b[0] == c[0] {
      LessTransitive(a[1..], b[1..], c[1..]);
    }
  }

  /** A first difference, in the smaller unit or the earlier end. */
  predicate FirstDiffers(a: Str, b: Str, k: nat) {
    k <= |a| && k < |b| && a[..k] == b[..k] && (k == |a| || a[k] < b[k])
  }

  /** The order is by code units: what decides is the first place where the keys differ. */
  lemma {:induction false} LessIff(a: Str, b: Str)
    ensures Less(a, b) <==> exists k: nat :: FirstDiffers(a, b, k)
  {
    if a == [] || b == [] {
      assert b != [] ==> FirstDiffers(a, b, 0);
    } else if a[0] != b[0] {
      assert a[0] < b[0] ==> FirstDiffers(a, b, 0);
      assert forall k: nat | k > 0 && k <= |a| && k < |b| :: a[..k][0] != b[..k][0];
    } else {
      LessIff(a[1..], b[1..]);
      if k: nat :| FirstDiffers(a[1..], b[1..], k) {
        assert a[..k + 1] == [a[0]] + a[1..][..k] && b[..k + 1] == [b[0]] + b[1..][..k];
        assert FirstDiffers(a, b, k + 1);
      }
      if k: nat :| FirstDiffers(a, b, k) {
        assert a[1..][..k - 1] == a[..k][1..] && b[1..][..k - 1] == b[..k][1..];
        assert FirstDiffers(a[1..], b[1..], k - 1);
      }
    }
  }

  predicate Ascending(fs: seq<Field>) {
    forall i, j | 0 <= i < j < |fs| :: Less(fs[i].key, fs[j].key)
  }

  predicate DistinctKeys(fs: seq<Field>) {
    forall i, j | 0 <= i < j < |fs| :: fs[i].key != fs[j].key
  }

  predicate HasKey(fs: seq<Field>, key: Str) {
    exists i | 0 <= i < |fs| :: fs[i].key == key
  }

  function Insert(f: Field, fs: seq<Field>): (r: seq<Field>)
    ensures multiset(r) == multiset(fs) + multiset{f}
  {
    if fs == [] || !Less(fs[0].key, f.key) then [f] + fs
    else
      assert fs == [fs[0]] + fs[1..];
      [fs[0]] + Insert(f, fs[1..])
  }

  function SortByKey(fs: seq<Field>): (r: seq<Field>)
    ensures multiset(r) == multiset(fs)
  {
    if fs == [] then []
    else
      assert fs == [fs[0]] + fs[1..];
      Insert(fs[0], SortByKey(fs[1..]))
  }

  lemma SortByKeyMembers(fs: seq<Field>)
    ensures forall f :: f in SortByKey(fs) <==> f in fs
  {
    forall f
      ensures f in SortByKey(fs) <==> f in fs
    {
      assert f in multiset(SortByKey(fs)) <==> f in multiset(fs);
    }
  }

  lemma AscendingCons(f: Field, fs: seq<Field>)
    requires Ascending(fs) && forall i | 0 <= i < |fs| :: Less(f.key, fs[i].key)
    ensures Ascending([f] + fs)
  {
  }

  lemma LessThanAll(f: Field, fs: seq<Field>)
    requires Ascending(fs) && (fs != [] ==> Less(f.key, fs[0].key))
    ensures forall i | 0 <= i < |fs| :: Less(f.key, fs[i].key)
  {
    forall i | 0 < i < |fs|
      ensures Less(f.key, fs[i].key)
    {
      LessTransitive(f.key, fs[0].key, fs[i].key);
    }
  }

  lemma {:induction false} InsertAscending(f: Field, fs: seq<Field>)
    requires Ascending(fs) && !HasKey(fs, f.key)
    ensures Ascending(Insert(f, fs))
  {
    if fs == [] || !Less(fs[0].key, f.key) {
      if fs != [] {
        LessTotal(fs[0].key, f.key);
      }
      LessThanAll(f, fs);
      AscendingCons(f, fs);
    } else {
      var rest := fs[1..];
      assert forall i | 0 <= i < |rest| :: rest[i] == fs[i + 1];
      InsertAscending(f, rest);
      forall i | 0 <= i < |Insert(f, rest)|
        ensures Less(fs[0].key, Insert(f, rest)[i].key)
      {
        assert Insert(f, rest)[i] in multiset(rest) + multiset{f};
      }
      AscendingCons(fs[0], Insert(f, rest));
    }
  }

  lemma {:induction false} SortAscending(fs: seq<Field>)
    requires DistinctKeys(fs)
    ensures Ascending(SortByKey(fs))
  {
    if fs != [] {
      SortAscending(fs[1..]);
      SortByKeyMembers(fs[1..]);
      forall i | 0 <= i < |SortByKey(fs[1..])|
        ensures SortByKey(fs[1..])[i].key != fs[0].key
      {
        assert SortByKey(fs[1..])[i] in fs[1..];
      }
      InsertAscending(fs[0], SortByKey(fs[1..]));
    }
  }

  // ---------------------------------------------------------------------------------
  // The printer
  // ---------------------------------------------------------------------------------

  const COMMA: Unit := 44
  const COLON: Unit := 58
  const OPEN_LIST: Unit := 91
  const CLOSE_LIST: Unit := 93
  const OPEN_RECORD: Unit := 123
  const CLOSE_RECORD: Unit := 125
  const NULL: Str := [110, 117, 108, 108]
  const TRUE: Str := [116, 114, 117, 101]
  const FALSE: Str := [102, 97, 108, 115, 101]

  function Join(parts: seq<Str>): Str {
    if parts == [] then []
    else if |parts| == 1 then parts[0]
    else parts[0] + [COMMA] + Join(parts[1..])
  }

  function Print(v: Value): Str
    decreases v
  {
    match v
    case Undefined => NULL
    case Null => NULL
    case Boolean(b) => if b then TRUE else FALSE
    case Number(n) => NumText(n)
    case NonFinite => NULL
    case Text(s) => Quote(s)
    case Date(_) => [OPEN_RECORD] + Join([]) + [CLOSE_RECORD]
    case List(items) => [OPEN_LIST] + Join(PrintItems(v, items)) + [CLOSE_LIST]
    case Record(fields) =>
      SortByKeyMembers(fields);
      [OPEN_RECORD] + Join(PrintFields(v, SortByKey(fields))) + [CLOSE_RECORD]
  }

  /** The values are parts of the context, which is what recursion over them decreases. */
  ghost predicate Below(context: Value, items: seq<Value>) {
    forall i | 0 <= i < |items| :: items[i] < context
  }

  function PrintItems(context: Value, items: seq<Value>): (parts: seq<Str>)
    requires Below(context, items)
    decreases context, |items|
  {
    if items == [] then [] else [Print(items[0])] + PrintItems(context, items[1..])
  }

  function PrintFields(context: Value, fields: seq<Field>): (parts: seq<Str>)
    requires forall f | f in fields :: f.value < context
    decreases context, |fields|
  {
    if fields == [] then []
    else [Quote(fields[0].key) + [COLON] + Print(fields[0].value)] + PrintFields(context, fields[1..])
  }

  // ---------------------------------------------------------------------------------
  // What a value means
  // ---------------------------------------------------------------------------------

  function Meaning(v: Value): Payload
    decreases v
  {
    match v
    case Undefined => PNull
    case Null => PNull
    case Boolean(b) => PBoolean(b)
    case Number(n) => PNumber(n)
    case NonFinite => PNull
    case Text(s) => PText(s)
    case Date(_) => PRecord(map[])
    case List(items) => PList(Meanings(v, items))
    case Record(fields) => PRecord(FieldMap(v, fields))
  }

  function Meanings(context: Value, items: seq<Value>): (ps: seq<Payload>)
    requires Below(context, items)
    decreases context, |items|
  {
    if items == [] then [] else [Meaning(items[0])] + Meanings(context, items[1..])
  }

  function FieldMap(context: Value, fields: seq<Field>): map<Str, Payload>
    requires forall f | f in fields :: f.value < context
    decreases context, |fields|
  {
    if fields == [] then map[] else FieldMap(context, fields[1..])[fields[0].key := Meaning(fields[0].value)]
  }

  /** JavaScript objects never hold a key twice. */
  predicate WellFormed(v: Value)
    decreases v
  {
    match v
    case List(items) => forall x | x in items :: WellFormed(x)
    case Record(fields) => DistinctKeys(fields) && forall f | f in fields :: WellFormed(f.value)
    case _ => true
  }

  lemma {:induction false} FieldMapAt(context: Value, fields: seq<Field>, key: Str)
    requires forall f | f in fields :: f.value < context
    requires DistinctKeys(fields)
    ensures key in FieldMap(context, fields) <==> HasKey(fields, key)
    ensures forall i | 0 <= i < |fields| && fields[i].key == key ::
              key in FieldMap(context, fields) && FieldMap(context, fields)[key] == Meaning(fields[i].value)
    decreases |fields|
  {
    if fields != [] {
      FieldMapAt(context, fields[1..], key);
      assert forall i | 0 < i < |fields| :: fields[i] == fields[1..][i - 1];
      assert HasKey(fields, key) <==> fields[0].key == key || HasKey(fields[1..], key);
    }
  }

  lemma AscendingDistinct(fs: seq<Field>)
    requires Ascending(fs)
    ensures DistinctKeys(fs)
  {
    forall i, j | 0 <= i < j < |fs|
      ensures fs[i].key != fs[j].key
    {
      LessTotal(fs[i].key, fs[j].key);
    }
  }

  /** Sequences of the same fields, without repeated keys, mean the same. */
  lemma SameMembersSameMap(context: Value, fs: seq<Field>, gs: seq<Field>, key: Str)
    requires forall f | f in fs :: f.value < context
    requires forall f | f in gs :: f.value < context
    requires DistinctKeys(fs) && DistinctKeys(gs) && forall f :: f in fs <==> f in gs
    ensures key in FieldMap(context, fs) <==> key in FieldMap(context, gs)
    ensures key in FieldMap(context, fs) ==> FieldMap(context, fs)[key] == FieldMap(context, gs)[key]
  {
    FieldMapAt(context, fs, key);
    FieldMapAt(context, gs, key);
    if i :| 0 <= i < |fs| && fs[i].key == key {
      assert fs[i] in gs;
      var j :| 0 <= j < |gs| && gs[j] == fs[i];
    }
    if j :| 0 <= j < |gs| && gs[j].key == key {
      assert gs[j] in fs;
    }
  }

  /** Sorting the fields does not change what they mean. */
  lemma FieldMapSorted(context: Value, fields: seq<Field>)
    requires forall f | f in fields :: f.value < context
    requires DistinctKeys(fields)
    ensures forall f | f in SortByKey(fields) :: f.value < context
    ensures DistinctKeys(SortByKey(fields))
    ensures FieldMap(context, SortByKey(fields)) == FieldMap(context, fields)
  {
    var sorted := SortByKey(fields);
    SortByKeyMembers(fields);
    SortAscending(fields);
    AscendingDistinct(sorted);
    forall key
      ensures key in FieldMap(context, sorted) <==> key in FieldMap(context, fields)
      ensures key in FieldMap(context, fields) ==> FieldMap(context, sorted)[key] == FieldMap(context, fields)[key]
    {
      SameMembersSameMap(context, sorted, fields, key);
    }
  }

  // ---------------------------------------------------------------------------------
  // Same meaning, same text
  // ---------------------------------------------------------------------------------

  lemma {:induction false} SameMeaningSameText(a: Value, b: Value)
    requires WellFormed(a) && WellFormed(b) && Meaning(a) == Meaning(b)
    ensures Print(a) == Print(b)
    decreases a
  {
    match a
    case List(xs) => SameItems(a, xs, b, b.items);
    case Record(fs) =>
      FieldMapSorted(a, fs);
      SortAscending(fs);
      SortByKeyMembers(fs);
      if b.Record? {
        FieldMapSorted(b, b.fields);
        SortAscending(b.fields);
        SortByKeyMembers(b.fields);
        SameFields(a, SortByKey(fs), b, SortByKey(b.fields));
      } else {
        SameFields(a, SortByKey(fs), b, []);
      }
    case Date(_) =>
      if b.Record? {
        NoFields(b, b.fields);
      }
    case _ =>
  }

  lemma NoFields(context: Value, fields: seq<Field>)
    requires forall f | f in fields :: f.value < context
    ensures fields != [] ==> fields[0].key in FieldMap(context, fields)
  {
  }

  lemma {:induction false} SameItems(ca: Value, xs: seq<Value>, cb: Value, ys: seq<Value>)
    requires Below(ca, xs) && forall v | v in xs :: WellFormed(v)
    requires Below(cb, ys) && forall v | v in ys :: WellFormed(v)
    requires Meanings(ca, xs) == Meanings(cb, ys)
    ensures PrintItems(ca, xs) == PrintItems(cb, ys)
    decreases ca, |xs|
  {
    if xs != [] {
      var ms := Meanings(ca, xs);
      assert ms[0] == Meaning(xs[0]) && ms[0] == Meaning(ys[0]);
      assert Meanings(ca, xs[1..]) == ms[1..] == Meanings(cb, ys[1..]);
      SameMeaningSameText(xs[0], ys[0]);
      SameItems(ca, xs[1..], cb, ys[1..]);
    }
  }

  lemma AscendingTail(context: Value, fields: seq<Field>)
    requires forall f | f in fields :: f.value < context
    requires fields != [] && Ascending(fields)
    ensures DistinctKeys(fields) && Ascending(fields[1..])
    ensures FieldMap(context, fields[1..]) == FieldMap(context, fields) - {fields[0].key}
    ensures forall key | key in FieldMap(context, fields) :: key == fields[0].key || Less(fields[0].key, key)
  {
    AscendingDistinct(fields);
    assert forall i | 0 <= i < |fields| - 1 :: fields[1..][i] == fields[i + 1];
    FieldMapAt(context, fields[1..], fields[0].key);
    forall key | key in FieldMap(context, fields)
      ensures key == fields[0].key || Less(fields[0].key, key)
    {
      FieldMapAt(context, fields, key);
    }
  }

  lemma {:induction false} SameFields(ca: Value, fs: seq<Field>, cb: Value, gs: seq<Field>)
    requires forall f | f in fs :: f.value < ca && WellFormed(f.value)
    requires forall f | f in gs :: f.value < cb && WellFormed(f.value)
    requires Ascending(fs) && Ascending(gs)
    requires FieldMap(ca, fs) == FieldMap(cb, gs)
    ensures PrintFields(ca, fs) == PrintFields(cb, gs)
    decreases ca, |fs|
  {
    if fs == [] {
      NoFields(cb, gs);
    } else if gs == [] {
      NoFields(ca, fs);
    } else {
      AscendingTail(ca, fs);
      AscendingTail(cb, gs);
      var m := FieldMap(ca, fs);
      assert fs[0].key in m && gs[0].key in m;
      LessTotal(fs[0].key, gs[0].key);
      assert fs[0].key == gs[0].key;
      SameMeaningSameText(fs[0].value, gs[0].value);
      SameFields(ca, fs[1..], cb, gs[1..]);
    }
  }

  // ---------------------------------------------------------------------------------
  // Same text, same meaning
  // ---------------------------------------------------------------------------------

  /** What can stand right after a value: nothing, a comma or a closing bracket. */
  predicate Stop(s: Str) {
    s == [] || s[0] == COMMA || s[0] == CLOSE_LIST || s[0] == CLOSE_RECORD
  }

  /** A list of parts after its first, up to the closing bracket. */
  function Tail(parts: seq<Str>, close: Unit): Str {
    if parts == [] then [close] else [COMMA] + parts[0] + Tail(parts[1..], close)
  }

  lemma {:induction false} JoinIsTail(parts: seq<Str>, close: Unit)
    requires parts != []
    ensures Join(parts) + [close] == parts[0] + Tail(parts[1..], close)
  {
    if |parts| > 1 {
      JoinIsTail(parts[1..], close);
      assert Join(parts) + [close] == parts[0] + [COMMA] + (Join(parts[1..]) + [close]);
    }
  }

  /** What follows one part: the later parts, the bracket and the rest of the text. */
  function Rest(parts: seq<Str>, close: Unit, s: Str): Str {
    Tail(parts, close) + s
  }

  lemma RestUnfolds(parts: seq<Str>, close: Unit, s: Str)
    requires close == CLOSE_LIST || close == CLOSE_RECORD
    ensures Stop(Rest(parts, close, s)) && Rest(parts, close, s)[0] == if parts == [] then close else COMMA
    ensures Rest(parts, close, s)[1..] == if parts == [] then s else parts[0] + Rest(parts[1..], close, s)
  {
    if parts != [] {
      assert Rest(parts, close, s) == [COMMA] + (parts[0] + Rest(parts[1..], close, s));
    } else {
      assert Rest(parts, close, s) == [close] + s;
    }
  }

  lemma DropFirst(open: Unit, a: Str, b: Str, c: Str)
    ensures ([open] + a + b + c)[1..] == a + b + c
  {
  }

  lemma Regroup(a: Str, b: Str, c: Str)
    ensures a + b + c == a + (b + c)
  {
  }

  lemma BracketsUnfold(open: Unit, parts: seq<Str>, close: Unit, s: Str)
    ensures ([open] + Join(parts) + [close] + s)[1..]
         == if parts == [] then [close] + s else parts[0] + Rest(parts[1..], close, s)
  {
    DropFirst(open, Join(parts), [close], s);
    if parts != [] {
      JoinIsTail(parts, close);
      Regroup(parts[0], Tail(parts[1..], close), s);
    } else {
      assert Join(parts) + [close] == [close];
    }
  }

  /** The first unit of a text tells the kind of value. */
  lemma FirstUnit(v: Value)
    ensures Print(v) != []
    ensures Print(v)[0] == 110 <==> Meaning(v).PNull?
    ensures Print(v)[0] == 116 || Print(v)[0] == 102 <==> v.Boolean?
    ensures IsDigit(Print(v)[0]) || Print(v)[0] == MINUS <==> v.Number?
    ensures Print(v)[0] == QUOTE <==> v.Text?
    ensures Print(v)[0] == OPEN_LIST <==> v.List?
    ensures Print(v)[0] == OPEN_RECORD <==> Meaning(v).PRecord?
  {
    if v.Number? {
      NumUnits(v.n);
    }
  }

  lemma {:induction false} Decodes(a: Value, b: Value, s: Str, t: Str)
    requires WellFormed(a) && WellFormed(b) && Stop(s) && Stop(t)
    requires Print(a) + s == Print(b) + t
    ensures Meaning(a) == Meaning(b) && s == t
    decreases a
  {
    var x, y := Print(a) + s, Print(b) + t;
    FirstUnit(a);
    FirstUnit(b);
    assert x[0] == Print(a)[0] && y[0] == Print(b)[0];
    if Meaning(a).PNull? {
      assert s == x[4..] && t == y[4..];
    } else if a.Boolean? {
      var n := |Print(a)|;
      assert s == x[n..] && t == y[n..];
    } else if a.Number? {
      NumDecodes(a.n, b.n, s, t);
    } else if a.Text? {
      QuoteDecodes(a.s, b.s, s, t);
    } else if a.List? {
      DecodesList(a, b, s, t);
    } else {
      DecodesRecord(a, b, s, t);
    }
  }

  lemma {:induction false} DecodesList(a: Value, b: Value, s: Str, t: Str)
    requires a.List? && b.List? && WellFormed(a) && WellFormed(b)
    requires Print(a) + s == Print(b) + t
    ensures Meaning(a) == Meaning(b) && s == t
    decreases a, |a.items|
  {
    var xs, ys := a.items, b.items;
    var ps, qs := PrintItems(a, xs), PrintItems(b, ys);
    BracketsUnfold(OPEN_LIST, ps, CLOSE_LIST, s);
    BracketsUnfold(OPEN_LIST, qs, CLOSE_LIST, t);
    var x, y := (Print(a) + s)[1..], (Print(b) + t)[1..];
    ItemStart(a, xs, x, s);
    ItemStart(b, ys, y, t);
    if xs == [] {
      assert s == x[1..] && t == y[1..];
    } else {
      var rest, rest' := Rest(ps[1..], CLOSE_LIST, s), Rest(qs[1..], CLOSE_LIST, t);
      RestUnfolds(ps[1..], CLOSE_LIST, s);
      RestUnfolds(qs[1..], CLOSE_LIST, t);
      Decodes(xs[0], ys[0], rest, rest');
      DecodesItems(a, xs[1..], b, ys[1..], s, t);
    }
  }

  /** After an opening bracket, only an empty list starts with the closing one. */
  lemma ItemStart(context: Value, items: seq<Value>, text: Str, s: Str)
    requires Below(context, items)
    requires var ps := PrintItems(context, items);
             text == if ps == [] then [CLOSE_LIST] + s else ps[0] + Rest(ps[1..], CLOSE_LIST, s)
    ensures text != [] && (text[0] == CLOSE_LIST <==> items == [])
  {
    if items != [] {
      FirstUnit(items[0]);
      assert text[0] == Print(items[0])[0];
    }
  }

  lemma {:induction false} DecodesItems(ca: Value, xs: seq<Value>, cb: Value, ys: seq<Value>, s: Str, t: Str)
    requires Below(ca, xs) && forall v | v in xs :: WellFormed(v)
    requires Below(cb, ys) && forall v | v in ys :: WellFormed(v)
    requires Rest(PrintItems(ca, xs), CLOSE_LIST, s) == Rest(PrintItems(cb, ys), CLOSE_LIST, t)
    ensures Meanings(ca, xs) == Meanings(cb, ys) && s == t
    decreases ca, |xs|
  {
    var ps, qs := PrintItems(ca, xs), PrintItems(cb, ys);
    RestUnfolds(ps, CLOSE_LIST, s);
    RestUnfolds(qs, CLOSE_LIST, t);
    if xs != [] {
      RestUnfolds(ps[1..], CLOSE_LIST, s);
      RestUnfolds(qs[1..], CLOSE_LIST, t);
      Decodes(xs[0], ys[0], Rest(ps[1..], CLOSE_LIST, s), Rest(qs[1..], CLOSE_LIST, t));
      DecodesItems(ca, xs[1..], cb, ys[1..], s, t);
    }
  }

  /** The fields a record-like value prints, in the order it prints them. */
  function Fields(v: Value): seq<Field> {
    if v.Record? then SortByKey(v.fields) else []
  }

  lemma RecordText(v: Value)
    requires WellFormed(v) && (v.Record? || v.Date?)
    ensures forall f | f in Fields(v) :: f.value < v && WellFormed(f.value)
    ensures DistinctKeys(Fields(v)) && Meaning(v) == PRecord(FieldMap(v, Fields(v)))
    ensures Print(v) == [OPEN_RECORD] + Join(PrintFields(v, Fields(v))) + [CLOSE_RECORD]
  {
    if v.Record? {
      FieldMapSorted(v, v.fields);
      SortByKeyMembers(v.fields);
    }
  }

  lemma {:induction false} DecodesRecord(a: Value, b: Value, s: Str, t: Str)
    requires a.Record? || a.Date?
    requires b.Record? || b.Date?
    requires WellFormed(a) && WellFormed(b) && Print(a) + s == Print(b) + t
    ensures Meaning(a) == Meaning(b) && s == t
    decreases a, |Fields(a)|
  {
    RecordText(a);
    RecordText(b);
    var fs, gs := Fields(a), Fields(b);
    var ps, qs := PrintFields(a, fs), PrintFields(b, gs);
    BracketsUnfold(OPEN_RECORD, ps, CLOSE_RECORD, s);
    BracketsUnfold(OPEN_RECORD, qs, CLOSE_RECORD, t);
    var x, y := (Print(a) + s)[1..], (Print(b) + t)[1..];
    assert x[0] == if fs == [] then CLOSE_RECORD else QUOTE;
    assert y[0] == if gs == [] then CLOSE_RECORD else QUOTE;
    if fs == [] {
      assert s == x[1..] && t == y[1..];
    } else {
      DecodesField(a, fs, b, gs, s, t);
    }
  }

  lemma RegroupField(quoted: Str, p: Str, rest: Str)
    ensures quoted + [COLON] + p + rest == quoted + ([COLON] + (p + rest))
  {
  }

  lemma KeyDecodes(k: Str, p: Str, rest: Str, k': Str, p': Str, rest': Str)
    requires Quote(k) + [COLON] + p + rest == Quote(k') + [COLON] + p' + rest'
    ensures k == k' && p + rest == p' + rest'
  {
    RegroupField(Quote(k), p, rest);
    RegroupField(Quote(k'), p', rest');
    QuoteDecodes(k, k', [COLON] + (p + rest), [COLON] + (p' + rest'));
    assert ([COLON] + (p + rest))[1..] == p + rest && ([COLON] + (p' + rest'))[1..] == p' + rest';
  }

  /** A first field, and then the ones after it. */
  lemma {:induction false} DecodesField(ca: Value, fs: seq<Field>, cb: Value, gs: seq<Field>, s: Str, t: Str)
    requires fs != [] && forall f | f in fs :: f.value < ca && WellFormed(f.value)
    requires gs != [] && forall f | f in gs :: f.value < cb && WellFormed(f.value)
    requires PrintFields(ca, fs)[0] + Rest(PrintFields(ca, fs)[1..], CLOSE_RECORD, s)
          == PrintFields(cb, gs)[0] + Rest(PrintFields(cb, gs)[1..], CLOSE_RECORD, t)
    ensures FieldMap(ca, fs) == FieldMap(cb, gs) && s == t
    decreases ca, |fs|, 0
  {
    var f, g := fs[0], gs[0];
    var rest := Rest(PrintFields(ca, fs[1..]), CLOSE_RECORD, s);
    var rest' := Rest(PrintFields(cb, gs[1..]), CLOSE_RECORD, t);
    KeyDecodes(f.key, Print(f.value), rest, g.key, Print(g.value), rest');
    RestUnfolds(PrintFields(ca, fs[1..]), CLOSE_RECORD, s);
    RestUnfolds(PrintFields(cb, gs[1..]), CLOSE_RECORD, t);
    Decodes(f.value, g.value, rest, rest');
    DecodesFields(ca, fs[1..], cb, gs[1..], s, t);
  }

  lemma {:induction false} DecodesFields(ca: Value, fs: seq<Field>, cb: Value, gs: seq<Field>, s: Str, t: Str)
    requires forall f | f in fs :: f.value < ca && WellFormed(f.value)
    requires forall f | f in gs :: f.value < cb && WellFormed(f.value)
    requires Rest(PrintFields(ca, fs), CLOSE_RECORD, s) == Rest(PrintFields(cb, gs), CLOSE_RECORD, t)
    ensures FieldMap(ca, fs) == FieldMap(cb, gs) && s == t
    decreases ca, |fs|, 1
  {
    RestUnfolds(PrintFields(ca, fs), CLOSE_RECORD, s);
    RestUnfolds(PrintFields(cb, gs), CLOSE_RECORD, t);
    if fs != [] {
      DecodesField(ca, fs, cb, gs, s, t);
    }
  }

  // ---------------------------------------------------------------------------------
  // Main results
  // ---------------------------------------------------------------------------------

  /** Two values print the same text exactly when they have the same payload: key order at
      any depth never matters, and nothing else that JSON can say is ever lost. */
  lemma SameTextIffSamePayload(a: Value, b: Value)
    requires WellFormed(a) && WellFormed(b)
    ensures Print(a) == Print(b) <==> Meaning(a) == Meaning(b)
  {
    if Print(a) == Print(b) {
      Decodes(a, b, [], []);
    } else if Meaning(a) == Meaning(b) {
      SameMeaningSameText(a, b);
    }
  }

  /** A value JSON can say: no undefined, non-finite number or date anywhere in it. */
  predicate Pure(v: Value)
    decreases v
  {
    match v
    case Undefined => false
    case NonFinite => false
    case Date(_) => false
    case List(items) => forall x | x in items :: Pure(x)
    case Record(fields) => forall f | f in fields :: Pure(f.value)
    case _ => true
  }

  /** Equal but for the order of object keys, at every level. */
  predicate Reordered(a: Value, b: Value)
    decreases a
  {
    match a
    case List(xs) =>
      b.List? && |xs| == |b.items| && forall i | 0 <= i < |xs| :: Reordered(xs[i], b.items[i])
    case Record(fs) =>
      && b.Record? && |fs| == |b.fields|
      && (forall i | 0 <= i < |fs| ::
            exists j | 0 <= j < |b.fields| :: b.fields[j].key == fs[i].key && Reordered(fs[i].value, b.fields[j].value))
    case _ => a == b
  }

  lemma {:induction false} MeaningsAt(context: Value, items: seq<Value>)
    requires Below(context, items)
    ensures |Meanings(context, items)| == |items|
    ensures forall i | 0 <= i < |items| :: Meanings(context, items)[i] == Meaning(items[i])
    decreases |items|
  {
    if items != [] {
      MeaningsAt(context, items[1..]);
    }
  }

  function KeySet(fields: seq<Field>): set<Str> {
    set i | 0 <= i < |fields| :: fields[i].key
  }

  lemma {:induction false} KeyCount(fields: seq<Field>)
    requires DistinctKeys(fields)
    ensures |KeySet(fields)| == |fields|
  {
    if fields != [] {
      var n := |fields| - 1;
      KeyCount(fields[..n]);
      assert KeySet(fields) == KeySet(fields[..n]) + {fields[n].key};
      assert fields[n].key !in KeySet(fields[..n]);
    }
  }

  lemma SubsetOfSameSize(a: set<Str>, b: set<Str>)
    requires a <= b && |a| == |b|
    ensures a == b
  {
    assert b == a + (b - a);
    assert |b| == |a| + |b - a|;
  }

  lemma {:induction false} MeaningIffReordered(a: Value, b: Value)
    requires WellFormed(a) && WellFormed(b) && Pure(a) && Pure(b)
    ensures Meaning(a) == Meaning(b) <==> Reordered(a, b)
    decreases a
  {
    if a.List? && b.List? {
      ListIffReordered(a, b);
    } else if a.Record? && b.Record? {
      RecordIffReordered(a, b);
    }
  }

  lemma {:induction false} ListIffReordered(a: Value, b: Value)
    requires a.List? && b.List?
    requires WellFormed(a) && WellFormed(b) && Pure(a) && Pure(b)
    ensures Meaning(a) == Meaning(b) <==> Reordered(a, b)
    decreases a, 0
  {
    MeaningsAt(a, a.items);
    MeaningsAt(b, b.items);
    forall i | 0 <= i < |a.items| && i < |b.items|
      ensures Meaning(a.items[i]) == Meaning(b.items[i]) <==> Reordered(a.items[i], b.items[i])
    {
      MeaningIffReordered(a.items[i], b.items[i]);
    }
  }

  /** Where a field of one record is in another that means the same. */
  lemma FieldFound(a: Value, fs: seq<Field>, b: Value, gs: seq<Field>, i: nat) returns (j: nat)
    requires forall f | f in fs :: f.value < a
    requires forall f | f in gs :: f.value < b
    requires DistinctKeys(fs) && DistinctKeys(gs) && FieldMap(a, fs) == FieldMap(b, gs) && i < |fs|
    ensures j < |gs| && gs[j].key == fs[i].key && Meaning(fs[i].value) == Meaning(gs[j].value)
  {
    FieldMapAt(a, fs, fs[i].key);
    FieldMapAt(b, gs, fs[i].key);
    j :| 0 <= j < |gs| && gs[j].key == fs[i].key;
  }

  lemma SameKeys(a: Value, fs: seq<Field>, b: Value, gs: seq<Field>)
    requires forall f | f in fs :: f.value < a
    requires forall f | f in gs :: f.value < b
    requires DistinctKeys(fs) && DistinctKeys(gs) && FieldMap(a, fs) == FieldMap(b, gs)
    ensures |fs| == |gs|
  {
    forall key
      ensures key in KeySet(fs) <==> key in KeySet(gs)
    {
      FieldMapAt(a, fs, key);
      FieldMapAt(b, gs, key);
    }
    assert KeySet(fs) == KeySet(gs);
    KeyCount(fs);
    KeyCount(gs);
  }

  lemma {:induction false} RecordIffReordered(a: Value, b: Value)
    requires a.Record? && b.Record?
    requires WellFormed(a) && WellFormed(b) && Pure(a) && Pure(b)
    ensures Meaning(a) == Meaning(b) <==> Reordered(a, b)
    decreases a, 0
  {
    var fs, gs := a.fields, b.fields;
    forall i, j | 0 <= i < |fs| && 0 <= j < |gs|
      ensures Meaning(fs[i].value) == Meaning(gs[j].value) <==> Reordered(fs[i].value, gs[j].value)
    {
      assert fs[i] in fs && gs[j] in gs;
      MeaningIffReordered(fs[i].value, gs[j].value);
    }
    if Meaning(a) == Meaning(b) {
      SameKeys(a, fs, b, gs);
      forall i | 0 <= i < |fs|
        ensures exists j | 0 <= j < |gs| :: gs[j].key == fs[i].key && Reordered(fs[i].value, gs[j].value)
      {
        var j := FieldFound(a, fs, b, gs, i);
      }
    } else if Reordered(a, b) {
      ReorderedMeansSame(a, b);
    }
  }

  /** The two notions agree on every pair of field values. */
  predicate FieldsMatch(fs: seq<Field>, gs: seq<Field>) {
    forall i, j | 0 <= i < |fs| && 0 <= j < |gs| ::
      (Meaning(fs[i].value) == Meaning(gs[j].value) <==> Reordered(fs[i].value, gs[j].value))
  }

  lemma ReorderedAtKey(a: Value, b: Value, key: Str)
    requires a.Record? && b.Record? && WellFormed(a) && WellFormed(b) && Reordered(a, b)
    requires FieldsMatch(a.fields, b.fields)
    ensures HasKey(a.fields, key) ==> HasKey(b.fields, key)
    ensures HasKey(a.fields, key) ==>
              key in FieldMap(a, a.fields) && key in FieldMap(b, b.fields)
              && FieldMap(a, a.fields)[key] == FieldMap(b, b.fields)[key]
  {
    var fs, gs := a.fields, b.fields;
    FieldMapAt(a, fs, key);
    FieldMapAt(b, gs, key);
    if i :| 0 <= i < |fs| && fs[i].key == key {
      var j :| 0 <= j < |gs| && gs[j].key == fs[i].key && Reordered(fs[i].value, gs[j].value);
    }
  }

  lemma ReorderedMeansSame(a: Value, b: Value)
    requires a.Record? && b.Record? && WellFormed(a) && WellFormed(b) && Reordered(a, b)
    requires FieldsMatch(a.fields, b.fields)
    ensures Meaning(a) == Meaning(b)
  {
    var fs, gs := a.fields, b.fields;
    forall key
      ensures HasKey(fs, key) ==> HasKey(gs, key)
    {
      ReorderedAtKey(a, b, key);
    }
    KeyCount(fs);
    KeyCount(gs);
    SubsetOfSameSize(KeySet(fs), KeySet(gs));
    forall key
      ensures key in FieldMap(a, fs) <==> key in FieldMap(b, gs)
      ensures key in FieldMap(a, fs) ==> FieldMap(a, fs)[key] == FieldMap(b, gs)[key]
    {
      FieldMapAt(a, fs, key);
      FieldMapAt(b, gs, key);
      assert key in KeySet(fs) <==> key in KeySet(gs);
      ReorderedAtKey(a, b, key);
    }
    assert FieldMap(a, fs) == FieldMap(b, gs);
  }

  /** On what JSON can say, the printed text identifies a value up to key order, no more and
      no less. */
  lemma CanonicalOnPure(a: Value, b: Value)
    requires WellFormed(a) && WellFormed(b) && Pure(a) && Pure(b)
    ensures Print(a) == Print(b) <==> Reordered(a, b)
  {
    SameTextIffSamePayload(a, b);
    MeaningIffReordered(a, b);
  }

  /** Off it, every impure leaf has a pure twin, so the request hash cannot tell a date from
      an empty object or from any other date, nor undefined or NaN from null. */
  lemma ImpureTwins(ms: int)
    ensures Print(Date(ms)) == Print(Record([])) && !Reordered(Date(ms), Record([]))
    ensures Print(Undefined) == Print(Null) == Print(NonFinite)
  {
    SameTextIffSamePayload(Date(ms), Record([]));
  }
}
