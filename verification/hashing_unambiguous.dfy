/** When two trees give the same stream: an unambiguous grammar for slash-free keys, and only for those. */
module HashUnambiguity {
  import opened TreeHashing

  // ----- the trees the hash is for -----

  /** A mapping has distinct keys, type names contain no colon and dtype texts no quote. */
  predicate Legal(t: Tree) {
    match t
    case Mapping(items) =>
      && (forall i, j :: 0 <= i < j < |items| ==> items[i].key != items[j].key)
      && (forall i :: 0 <= i < |items| ==> Legal(items[i].value))
    case List(_, children) => forall i :: 0 <= i < |children| ==> Legal(children[i])
    case Blob(_) => true
    case Scalar(typeName, _) => ':' !in typeName
    case Array(dtype, _, _) => '"' !in dtype
  }

  /** Every mapping key of the tree is one of `keys`. */
  ghost predicate KeysIn(t: Tree, keys: iset<Bytes>) {
    match t
    case Mapping(items) => forall i :: 0 <= i < |items| ==> items[i].key in keys && KeysIn(items[i].value, keys)
    case List(_, children) => forall i :: 0 <= i < |children| ==> KeysIn(children[i], keys)
    case _ => true
  }

  ghost const SLASH_FREE: iset<Bytes> := iset k: Bytes | '/' !in k

  /** Equal up to what the hash leaves out: mapping order, list or tuple, shape () or (1,). */
  ghost predicate Same(t: Tree, u: Tree)
    decreases t, 1
  {
    match t
    case Mapping(items) => u.Mapping? && SameItems(items, u.items)
    case List(_, children) => u.List? && SameAll(children, u.children)
    case Array(dtype, shape, data) =>
      u.Array? && dtype == u.dtype && CanonShape(shape) == CanonShape(u.shape) && data == u.data
    case _ => t == u
  }

  /** Each item of `a` has its counterpart in `b`, which is no longer. */
  ghost predicate SameItems(a: seq<Item>, b: seq<Item>)
    decreases a, 0
  {
    && |a| == |b|
    && (forall i :: 0 <= i < |a| ==> exists j :: 0 <= j < |b| && a[i].key == b[j].key && Same(a[i].value, b[j].value))
  }

  ghost predicate SameAll(a: seq<Tree>, b: seq<Tree>)
    decreases a, 0
  {
    |a| == |b| && (forall i :: 0 <= i < |a| ==> Same(a[i], b[i]))
  }

  // ----- text: cutting at the first stop character -----

  lemma FirstStop(a: Bytes, c: char, x: Bytes, stops: set<char>)
    requires c in stops && forall i :: 0 <= i < |a| ==> a[i] !in stops
    ensures var text := a + [c] + x;
      && text[|a|] in stops && (forall i :: 0 <= i < |a| ==> text[i] !in stops)
      && text[..|a|] == a && text[|a|] == c && text[|a| + 1..] == x
  {
  }

  lemma CutAtStop(a: Bytes, c: char, x: Bytes, b: Bytes, d: char, y: Bytes, stops: set<char>)
    requires a + [c] + x == b + [d] + y && c in stops && d in stops
    requires forall i :: 0 <= i < |a| ==> a[i] !in stops
    requires forall i :: 0 <= i < |b| ==> b[i] !in stops
    ensures a == b && c == d && x == y
  {
    FirstStop(a, c, x, stops);
    FirstStop(b, d, y, stops);
  }

  lemma {:induction false} DecimalIsDigits(n: nat)
    ensures |Decimal(n)| >= 1 && (n >= 10 ==> |Decimal(n)| >= 2)
    ensures forall i :: 0 <= i < |Decimal(n)| ==> '0' <= Decimal(n)[i] <= '9'
  {
    if n >= 10 {
      DecimalIsDigits(n / 10);
    }
  }

  lemma DigitsDiffer(a: nat, b: nat)
    requires a < 10 && b < 10 && Digit(a) == Digit(b)
    ensures a == b
  {
    var digits := "0123456789";
    assert forall i, j :: 0 <= i < j < 10 ==> digits[i] != digits[j];
  }

  lemma {:induction false} DecimalDetermines(a: nat, b: nat)
    requires Decimal(a) == Decimal(b)
    ensures a == b
  {
    DecimalIsDigits(a);
    DecimalIsDigits(b);
    var da, db := Decimal(a), Decimal(b);
    if a < 10 {
      DigitsDiffer(a, b);
    } else {
      assert da[|da| - 1] == Digit(a % 10) && db[|db| - 1] == Digit(b % 10);
      DigitsDiffer(a % 10, b % 10);
      assert da[..|da| - 1] == Decimal(a / 10) && db[..|db| - 1] == Decimal(b / 10);
      DecimalDetermines(a / 10, b / 10);
    }
  }

  /** What ends the first dimension, and what follows it. */
  function StopOf(s: seq<nat>): char {
    if |s| == 1 then ']' else ','
  }

  function AfterFirst(s: seq<nat>, x: Bytes): Bytes
    requires |s| > 0
  {
    if |s| == 1 then x else Commas(s[1..]) + "]" + x
  }

  lemma CommasText(s: seq<nat>, x: Bytes)
    requires |s| > 0
    ensures Commas(s) + "]" + x == Decimal(s[0]) + [StopOf(s)] + AfterFirst(s, x)
  {
    if |s| > 1 {
      Regroup(Decimal(s[0]), Commas(s[1..]), x);
    }
  }

  lemma Regroup(d: Bytes, rest: Bytes, x: Bytes)
    ensures d + "," + rest + "]" + x == d + [','] + (rest + "]" + x)
  {
  }

  lemma {:induction false} CommasDetermine(s: seq<nat>, u: seq<nat>, x: Bytes, y: Bytes)
    requires |s| > 0 && |u| > 0 && Commas(s) + "]" + x == Commas(u) + "]" + y
    ensures s == u && x == y
  {
    CommasText(s, x);
    CommasText(u, y);
    DecimalIsDigits(s[0]);
    DecimalIsDigits(u[0]);
    CutAtStop(Decimal(s[0]), StopOf(s), AfterFirst(s, x), Decimal(u[0]), StopOf(u), AfterFirst(u, y), {',', ']'});
    DecimalDetermines(s[0], u[0]);
    if |s| > 1 {
      CommasDetermine(s[1..], u[1..], x, y);
    }
    assert s == [s[0]] + s[1..] && u == [u[0]] + u[1..];
  }

  // ----- a payload determines the leaf, or how many children follow -----

  lemma StripPrefix(prefix: Bytes, a: Bytes, b: Bytes)
    requires prefix + a == prefix + b
    ensures a == b
  {
    assert (prefix + a)[|prefix|..] == a && (prefix + b)[|prefix|..] == b;
  }

  lemma ScalarPayload(t: Tree, u: Tree)
    requires t.Scalar? && u.Scalar? && Legal(t) && Legal(u) && Payload(t) == Payload(u)
    ensures t == u
  {
    assert Payload(t) == "scalar:" + (t.typeName + [':'] + t.json);
    assert Payload(u) == "scalar:" + (u.typeName + [':'] + u.json);
    StripPrefix("scalar:", t.typeName + [':'] + t.json, u.typeName + [':'] + u.json);
    CutAtStop(t.typeName, ':', t.json, u.typeName, ':', u.json, {':'});
  }

  lemma ArrayText(dtype: Bytes, shape: seq<nat>, data: Bytes)
    ensures "array:" + Metadata(dtype, shape) + ":" + data
      == "array:{\"dtype\":\"" + (dtype + ['"'] + (",\"shape\":[" + (Commas(shape) + "]" + ("}:" + data))))
  {
  }

  lemma ArrayPayload(t: Tree, u: Tree)
    requires t.Array? && u.Array? && Legal(t) && Legal(u) && Payload(t) == Payload(u)
    ensures t.dtype == u.dtype && CanonShape(t.shape) == CanonShape(u.shape) && t.data == u.data
  {
    var s, r := CanonShape(t.shape), CanonShape(u.shape);
    ArrayText(t.dtype, s, t.data);
    ArrayText(u.dtype, r, u.data);
    var p := ",\"shape\":[" + (Commas(s) + "]" + ("}:" + t.data));
    var q := ",\"shape\":[" + (Commas(r) + "]" + ("}:" + u.data));
    StripPrefix("array:{\"dtype\":\"", t.dtype + ['"'] + p, u.dtype + ['"'] + q);
    CutAtStop(t.dtype, '"', p, u.dtype, '"', q, {'"'});
    StripPrefix(",\"shape\":[", Commas(s) + "]" + ("}:" + t.data), Commas(r) + "]" + ("}:" + u.data));
    CommasDetermine(s, r, "}:" + t.data, "}:" + u.data);
    StripPrefix("}:", t.data, u.data);
  }

  lemma PayloadKinds(t: Tree)
    ensures |Payload(t)| >= 2
    ensures t.Mapping? <==> Payload(t)[0] == 'm'
    ensures t.Blob? <==> Payload(t)[0] == 'b'
    ensures t.Array? <==> Payload(t)[0] == 'a'
    ensures t.List? <==> Payload(t)[0] == 's' && Payload(t)[1] == 'e'
    ensures t.Scalar? <==> Payload(t)[0] == 's' && Payload(t)[1] == 'c'
  {
  }

  /** Equal payloads come from the same kind of node; leaves are then the same and lists equally long. */
  lemma PayloadDetermines(t: Tree, u: Tree)
    requires Legal(t) && Legal(u) && Payload(t) == Payload(u)
    ensures t.Mapping? <==> u.Mapping?
    ensures t.List? <==> u.List?
    ensures t.List? ==> |t.children| == |u.children|
    ensures !t.Mapping? && !t.List? ==> Same(t, u)
  {
    PayloadKinds(t);
    PayloadKinds(u);
    match t {
      case Mapping(_) =>
      case List(_, children) =>
        StripPrefix("sequence:", Decimal(|children|), Decimal(|u.children|));
        DecimalDetermines(|children|, |u.children|);
      case Blob(data) => StripPrefix("bytes:", data, u.data);
      case Scalar(_, _) => ScalarPayload(t, u);
      case Array(_, _, _) => ArrayPayload(t, u);
    }
  }

  // ----- parsing the frames back -----

  /** Trees as Canon leaves them, with slash-free keys. */
  predicate Tidy(t: Tree) {
    match t
    case Mapping(items) => forall i :: 0 <= i < |items| ==> '/' !in items[i].key && Tidy(items[i].value)
    case List(tuple, children) => !tuple && forall i :: 0 <= i < |children| ==> Tidy(children[i])
    case Blob(_) => true
    case Scalar(typeName, _) => ':' !in typeName
    case Array(dtype, shape, _) => '"' !in dtype && shape != []
  }

  /** The frames that follow a subtree do not carry names below its path. */
  predicate Outside(path: Bytes, rest: seq<Frame>) {
    rest == [] || !(path + "/" <= rest[0].name)
  }

  lemma PrefixTwice(path: Bytes, key: Bytes, name: Bytes)
    requires Child(path, key) + "/" <= name
    ensures path + "/" <= name
  {
    assert name[..|path| + 1] == (Child(path, key) + "/")[..|path| + 1] == path + "/";
  }

  lemma SiblingsApart(path: Bytes, key: Bytes, other: Bytes)
    requires '/' !in other
    ensures !(Child(path, key) + "/" <= Child(path, other))
  {
    var n := |path| + 1 + |key|;
    assert (Child(path, key) + "/")[n] == '/';
    if n < |Child(path, other)| {
      assert Child(path, other)[n] == other[n - |path| - 1];
    }
  }

  /** The next sibling, or what follows the parent, is outside the child. */
  lemma RestIsOutside(items: seq<Item>, path: Bytes, key: Bytes, rest: seq<Frame>)
    requires Outside(path, rest) && (items != [] ==> '/' !in items[0].key)
    ensures Outside(Child(path, key), ItemFrames(items, path) + rest)
  {
    if items != [] {
      SiblingsApart(path, key, items[0].key);
    } else if rest != [] && Child(path, key) + "/" <= rest[0].name {
      PrefixTwice(path, key, rest[0].name);
    }
  }

  lemma RestOfListIsOutside(children: seq<Tree>, index: nat, path: Bytes, key: Bytes, rest: seq<Frame>)
    requires Outside(path, rest)
    ensures Outside(Child(path, key), ListFrames(children, index, path) + rest)
  {
    if children != [] {
      DecimalIsDigits(index);
      SiblingsApart(path, key, Decimal(index));
    } else if rest != [] && Child(path, key) + "/" <= rest[0].name {
      PrefixTwice(path, key, rest[0].name);
    }
  }

  lemma ChildIsBelow(path: Bytes, key: Bytes)
    ensures path + "/" <= Child(path, key)
  {
  }

  lemma ChildDetermines(path: Bytes, key: Bytes, other: Bytes)
    requires Child(path, key) == Child(path, other)
    ensures key == other
  {
    StripPrefix(path + "/", key, other);
  }

  lemma TidyLeaf(t: Tree, u: Tree)
    requires Tidy(t) && Tidy(u) && !t.Mapping? && !t.List? && Same(t, u)
    ensures t == u
  {
  }

  lemma SplitFrames(t: Tree, path: Bytes, rest: seq<Frame>)
    ensures Frames(t, path) + rest == [Frame(path, Payload(t))] + (Below(t, path) + rest)
  {
  }

  /** A tidy tree can be read back from its frames, whatever follows outside it. */
  lemma {:induction false} FramesDetermine(t: Tree, u: Tree, path: Bytes, x: seq<Frame>, y: seq<Frame>)
    requires Tidy(t) && Tidy(u) && Legal(t) && Legal(u) && Outside(path, x) && Outside(path, y)
    requires Frames(t, path) + x == Frames(u, path) + y
    ensures t == u && x == y
    decreases t, 1
  {
    SplitFrames(t, path, x);
    SplitFrames(u, path, y);
    assert (Frames(t, path) + x)[0] == Frame(path, Payload(t)) && (Frames(u, path) + y)[0] == Frame(path, Payload(u));
    assert (Frames(t, path) + x)[1..] == Below(t, path) + x && (Frames(u, path) + y)[1..] == Below(u, path) + y;
    PayloadDetermines(t, u);
    match t {
      case Mapping(items) => ItemsDetermine(items, u.items, path, x, y);
      case List(_, children) => ListDetermines(children, u.children, 0, path, x, y);
      case _ => TidyLeaf(t, u); assert Below(t, path) + x == x && Below(u, path) + y == y;
    }
  }

  lemma ItemsText(items: seq<Item>, path: Bytes, rest: seq<Frame>)
    requires items != []
    ensures var all := ItemFrames(items, path) + rest;
      && all == Frames(items[0].value, Child(path, items[0].key)) + (ItemFrames(items[1..], path) + rest)
      && all[0].name == Child(path, items[0].key) && !Outside(path, all)
  {
    ChildIsBelow(path, items[0].key);
  }

  lemma ListText(children: seq<Tree>, index: nat, path: Bytes, rest: seq<Frame>)
    requires children != []
    ensures ListFrames(children, index, path) + rest
      == Frames(children[0], Child(path, Decimal(index))) + (ListFrames(children[1..], index + 1, path) + rest)
  {
  }

  predicate TidyItems(items: seq<Item>) {
    forall i :: 0 <= i < |items| ==> '/' !in items[i].key && Tidy(items[i].value) && Legal(items[i].value)
  }

  /** No items on one side: none on the other. */
  lemma NoItemsDetermine(b: seq<Item>, path: Bytes, x: seq<Frame>, y: seq<Frame>)
    requires Outside(path, x) && x == ItemFrames(b, path) + y
    ensures b == [] && x == y
  {
    if b != [] {
      ItemsText(b, path, y);
    } else {
      assert ItemFrames([], path) + y == y;
    }
  }

  lemma {:induction false} ItemsDetermine(a: seq<Item>, b: seq<Item>, path: Bytes, x: seq<Frame>, y: seq<Frame>)
    requires TidyItems(a) && TidyItems(b) && Outside(path, x) && Outside(path, y)
    requires ItemFrames(a, path) + x == ItemFrames(b, path) + y
    ensures a == b && x == y
    decreases a, 1
  {
    if a == [] {
      assert ItemFrames([], path) + x == x;
      NoItemsDetermine(b, path, x, y);
    } else if b == [] {
      assert ItemFrames([], path) + y == y;
      NoItemsDetermine(a, path, y, x);
    } else {
      FirstItemDetermines(a, b, path, x, y);
      ItemsDetermine(a[1..], b[1..], path, x, y);
      assert a == [a[0]] + a[1..] && b == [b[0]] + b[1..];
    }
  }

  lemma FirstItemDetermines(a: seq<Item>, b: seq<Item>, path: Bytes, x: seq<Frame>, y: seq<Frame>)
    requires TidyItems(a) && TidyItems(b) && Outside(path, x) && Outside(path, y) && a != [] && b != []
    requires ItemFrames(a, path) + x == ItemFrames(b, path) + y
    ensures a[0] == b[0] && ItemFrames(a[1..], path) + x == ItemFrames(b[1..], path) + y
    decreases a, 0
  {
    hide Frames, ItemFrames, Tidy, Legal;
    ItemsText(a, path, x);
    ItemsText(b, path, y);
    ChildDetermines(path, a[0].key, b[0].key);
    RestIsOutside(a[1..], path, a[0].key, x);
    RestIsOutside(b[1..], path, a[0].key, y);
    FramesDetermine(a[0].value, b[0].value, Child(path, a[0].key),
                    ItemFrames(a[1..], path) + x, ItemFrames(b[1..], path) + y);
  }

  lemma {:induction false} ListDetermines(a: seq<Tree>, b: seq<Tree>, index: nat, path: Bytes, x: seq<Frame>,
                                          y: seq<Frame>)
    requires |a| == |b|
    requires forall i :: 0 <= i < |a| ==> Tidy(a[i]) && Legal(a[i])
    requires forall i :: 0 <= i < |b| ==> Tidy(b[i]) && Legal(b[i])
    requires Outside(path, x) && Outside(path, y) && ListFrames(a, index, path) + x == ListFrames(b, index, path) + y
    ensures a == b && x == y
    decreases a, 0
  {
    assert ListFrames([], index, path) + x == x && ListFrames([], index, path) + y == y;
    if a != [] {
      ListText(a, index, path, x);
      ListText(b, index, path, y);
      RestOfListIsOutside(a[1..], index + 1, path, Decimal(index), x);
      RestOfListIsOutside(b[1..], index + 1, path, Decimal(index), y);
      FramesDetermine(a[0], b[0], Child(path, Decimal(index)),
                      ListFrames(a[1..], index + 1, path) + x, ListFrames(b[1..], index + 1, path) + y);
      ListDetermines(a[1..], b[1..], index + 1, path, x, y);
      assert a == [a[0]] + a[1..] && b == [b[0]] + b[1..];
    }
  }

  // ----- the bytes determine the frames -----

  lemma {:induction false} BigEndianDetermines(a: nat, b: nat, width: nat)
    requires a < Power256(width) && b < Power256(width) && BigEndian(a, width) == BigEndian(b, width)
    ensures a == b
  {
    if width > 0 {
      var x, y := BigEndian(a, width), BigEndian(b, width);
      assert x[..width - 1] == BigEndian(a / 256, width - 1) && y[..width - 1] == BigEndian(b / 256, width - 1);
      assert x[width - 1] == (a % 256) as char && y[width - 1] == (b % 256) as char;
      BigEndianDetermines(a / 256, b / 256, width - 1);
    }
  }

  lemma TakeAndDrop(a: Bytes, x: Bytes, b: Bytes, y: Bytes)
    requires a + x == b + y && |a| == |b|
    ensures a == b && x == y
  {
    assert (a + x)[..|a|] == a && (b + y)[..|b|] == b;
    assert (a + x)[|a|..] == x && (b + y)[|b|..] == y;
  }

  lemma FrameText(f: Frame, rest: Bytes)
    ensures EncodeFrame(f) + rest
      == BigEndian(|f.name|, 4) + (f.name + (BigEndian(|f.payload|, 8) + (f.payload + rest)))
    ensures |EncodeFrame(f)| >= 12
  {
  }

  lemma FrameDetermines(f: Frame, g: Frame, x: Bytes, y: Bytes)
    requires Fits(f) && Fits(g) && EncodeFrame(f) + x == EncodeFrame(g) + y
    ensures f == g && x == y
  {
    FrameText(f, x);
    FrameText(g, y);
    var fp, gp := BigEndian(|f.payload|, 8), BigEndian(|g.payload|, 8);
    TakeAndDrop(BigEndian(|f.name|, 4), f.name + (fp + (f.payload + x)),
                BigEndian(|g.name|, 4), g.name + (gp + (g.payload + y)));
    BigEndianDetermines(|f.name|, |g.name|, 4);
    TakeAndDrop(f.name, fp + (f.payload + x), g.name, gp + (g.payload + y));
    TakeAndDrop(fp, f.payload + x, gp, g.payload + y);
    BigEndianDetermines(|f.payload|, |g.payload|, 8);
    TakeAndDrop(f.payload, x, g.payload, y);
  }

  /** The framing is unambiguous: for any trees at all, equal streams are streams of equal frames. */
  lemma {:induction false} EncodeDetermines(fs: seq<Frame>, gs: seq<Frame>)
    requires AllFit(fs) && AllFit(gs) && Encode(fs) == Encode(gs)
    ensures fs == gs
  {
    if fs != [] {
      FrameText(fs[0], Encode(fs[1..]));
    }
    if gs != [] {
      FrameText(gs[0], Encode(gs[1..]));
    }
    if fs != [] && gs != [] {
      FrameDetermines(fs[0], gs[0], Encode(fs[1..]), Encode(gs[1..]));
      EncodeDetermines(fs[1..], gs[1..]);
      assert fs == [fs[0]] + fs[1..] && gs == [gs[0]] + gs[1..];
    }
  }

  // ----- canonical trees and sameness -----

  /** Canon leaves a tidy, legal tree. */
  lemma {:induction false} CanonIsTidy(t: Tree)
    requires Legal(t) && KeysIn(t, SLASH_FREE)
    ensures Tidy(Canon(t)) && Legal(Canon(t))
  {
    match t {
      case Mapping(items) =>
        forall i | 0 <= i < |items|
            ensures '/' !in items[i].key && Tidy(Canon(items[i].value)) && Legal(Canon(items[i].value)) {
          CanonIsTidy(items[i].value);
        }
        var c := CanonItems(items);
        assert TidyItems(c);
        SortedIsDistinct(c);
        forall i | 0 <= i < |SortItems(c)|
          ensures '/' !in SortItems(c)[i].key && Tidy(SortItems(c)[i].value) && Legal(SortItems(c)[i].value)
        {
          assert SortItems(c)[i] in c;
        }
      case List(_, children) =>
        forall i | 0 <= i < |children| ensures Tidy(Canon(children[i])) && Legal(Canon(children[i])) {
          CanonIsTidy(children[i]);
        }
      case _ =>
    }
  }

  predicate Increasing(items: seq<Item>) {
    forall i, j :: 0 <= i < j < |items| ==> Before(items[i].key, items[j].key)
  }

  predicate Distinct(items: seq<Item>) {
    forall i, j :: 0 <= i < j < |items| ==> items[i].key != items[j].key
  }

  lemma {:induction false} InsertIncreases(item: Item, sorted: seq<Item>)
    requires Increasing(sorted) && forall x :: x in sorted ==> x.key != item.key
    ensures Increasing(Insert(item, sorted))
  {
    if sorted != [] {
      if Before(item.key, sorted[0].key) {
        forall j | 1 <= j < |sorted| ensures Before(item.key, sorted[j].key) {
          BeforeIsTransitive(item.key, sorted[0].key, sorted[j].key);
        }
      } else {
        BeforeIsTotal(item.key, sorted[0].key);
        InsertIncreases(item, sorted[1..]);
        var rest := Insert(item, sorted[1..]);
        forall j | 0 <= j < |rest| ensures Before(sorted[0].key, rest[j].key) {
          assert rest[j] in rest;
        }
      }
    }
  }

  lemma {:induction false} SortIncreases(items: seq<Item>)
    requires Distinct(items)
    ensures Increasing(SortItems(items))
  {
    if items != [] {
      SortIncreases(items[1..]);
      InsertIncreases(items[0], SortItems(items[1..]));
    }
  }

  lemma SortedIsDistinct(items: seq<Item>)
    requires Distinct(items)
    ensures Distinct(SortItems(items))
  {
    SortIncreases(items);
    var s := SortItems(items);
    forall i, j | 0 <= i < j < |s| ensures s[i].key != s[j].key {
      BeforeIsStrict(s[i].key);
    }
  }

  /** Increasing lists with the same items are equal. */
  lemma {:induction false} IncreasingUnique(a: seq<Item>, b: seq<Item>)
    requires Increasing(a) && Increasing(b) && forall x :: x in a <==> x in b
    ensures a == b
  {
    assert (a != [] ==> a[0] in b) && (b != [] ==> b[0] in a);
    if a != [] && b != [] {
      FirstIsLeast(a, b[0]);
      FirstIsLeast(b, a[0]);
      if a[0] != b[0] {
        BeforeIsTransitive(a[0].key, b[0].key, a[0].key);
      }
      BeforeIsStrict(a[0].key);
      TailHolds(a, b);
      TailHolds(b, a);
      IncreasingUnique(a[1..], b[1..]);
      assert a == [a[0]] + a[1..] && b == [b[0]] + b[1..];
    }
  }

  lemma FirstIsLeast(a: seq<Item>, x: Item)
    requires Increasing(a) && x in a
    ensures x == a[0] || Before(a[0].key, x.key)
  {
  }

  lemma TailHolds(a: seq<Item>, b: seq<Item>)
    requires Increasing(a) && a != [] && b != [] && a[0] == b[0] && Increasing(b)
    requires forall x :: x in a ==> x in b
    ensures forall x :: x in a[1..] ==> x in b[1..]
  {
    forall x | x in a[1..] ensures x in b[1..] {
      var i :| 0 <= i < |a[1..]| && a[1..][i] == x;
      assert a[i + 1] == x;
      BeforeIsStrict(a[0].key);
      assert x in b && b == [b[0]] + b[1..];
    }
  }

  /** Same trees have the same canonical form, and only they do. */
  lemma {:induction false} SameIffCanon(t: Tree, u: Tree)
    requires Legal(t) && Legal(u)
    ensures Same(t, u) <==> Canon(t) == Canon(u)
    decreases t, 1
  {
    match t {
      case Mapping(items) => if u.Mapping? { ItemsSameIffCanon(items, u.items); }
      case List(_, children) => if u.List? { ChildrenSameIffCanon(children, u.children); }
      case _ =>
    }
  }

  lemma {:induction false} ItemsSameIffCanon(a: seq<Item>, b: seq<Item>)
    requires Distinct(a) && Distinct(b)
    requires forall i :: 0 <= i < |a| ==> Legal(a[i].value)
    requires forall i :: 0 <= i < |b| ==> Legal(b[i].value)
    ensures SameItems(a, b) <==> SortItems(CanonItems(a)) == SortItems(CanonItems(b))
    decreases a, 0
  {
    forall i, j | 0 <= i < |a| && 0 <= j < |b|
      ensures Same(a[i].value, b[j].value) <==> Canon(a[i].value) == Canon(b[j].value)
    {
      SameIffCanon(a[i].value, b[j].value);
    }
    SameItemsIffCanon(a, b);
  }

  lemma {:induction false} ChildrenSameIffCanon(a: seq<Tree>, b: seq<Tree>)
    requires forall i :: 0 <= i < |a| ==> Legal(a[i])
    requires forall i :: 0 <= i < |b| ==> Legal(b[i])
    ensures SameAll(a, b) <==> CanonAll(a) == CanonAll(b)
    decreases a, 0
  {
    forall i | 0 <= i < |a| && i < |b| ensures Same(a[i], b[i]) <==> Canon(a[i]) == Canon(b[i]) {
      SameIffCanon(a[i], b[i]);
    }
    if CanonAll(a) == CanonAll(b) {
      assert forall i :: 0 <= i < |a| ==> CanonAll(a)[i] == CanonAll(b)[i];
    }
  }

  lemma SameItemsIffCanon(a: seq<Item>, b: seq<Item>)
    requires Distinct(a) && Distinct(b)
    requires forall i, j :: 0 <= i < |a| && 0 <= j < |b| ==>
      (Same(a[i].value, b[j].value) <==> Canon(a[i].value) == Canon(b[j].value))
    ensures SameItems(a, b) <==> SortItems(CanonItems(a)) == SortItems(CanonItems(b))
  {
    hide Same, Canon, CanonItems, SortItems, SameItems;
    if SameItems(a, b) {
      SameItemsSortAlike(a, b);
    }
    if SortItems(CanonItems(a)) == SortItems(CanonItems(b)) {
      SortedAlikeAreSame(a, b);
    }
  }

  lemma SameItemsSortAlike(a: seq<Item>, b: seq<Item>)
    requires Distinct(a) && Distinct(b)
    requires forall i, j :: 0 <= i < |a| && 0 <= j < |b| ==>
      (Same(a[i].value, b[j].value) <==> Canon(a[i].value) == Canon(b[j].value))
    requires SameItems(a, b)
    ensures SortItems(CanonItems(a)) == SortItems(CanonItems(b))
  {
    hide Same, Canon;
    var ca, cb := CanonItems(a), CanonItems(b);
    forall x | x in ca ensures x in cb {
      var i :| 0 <= i < |ca| && ca[i] == x;
      var j :| 0 <= j < |b| && a[i].key == b[j].key && Same(a[i].value, b[j].value);
      assert cb[j] == x;
    }
    SubsetOfSameSize(ca, cb);
    SortIncreases(ca);
    SortIncreases(cb);
    IncreasingUnique(SortItems(ca), SortItems(cb));
  }

  lemma SortedAlikeAreSame(a: seq<Item>, b: seq<Item>)
    requires Distinct(a) && Distinct(b)
    requires forall i, j :: 0 <= i < |a| && 0 <= j < |b| ==>
      (Same(a[i].value, b[j].value) <==> Canon(a[i].value) == Canon(b[j].value))
    requires SortItems(CanonItems(a)) == SortItems(CanonItems(b))
    ensures SameItems(a, b)
  {
    hide Same, Canon;
    var ca, cb := CanonItems(a), CanonItems(b);
    forall i | 0 <= i < |a| ensures exists j :: 0 <= j < |b| && a[i].key == b[j].key && Same(a[i].value, b[j].value) {
      assert ca[i] in SortItems(cb);
      var j :| 0 <= j < |cb| && cb[j] == ca[i];
      assert Same(a[i].value, b[j].value);
    }
  }

  /** Distinct lists of one length, one inside the other, hold the same items. */
  lemma SubsetOfSameSize(a: seq<Item>, b: seq<Item>)
    requires Distinct(a) && Distinct(b) && |a| == |b| && forall x :: x in a ==> x in b
    ensures forall x :: x in a <==> x in b
  {
    var sa, sb := set x | x in a, set x | x in b;
    SetSize(a);
    SetSize(b);
    assert sa <= sb;
    assert |sb - sa| == |sb| - |sa|;
    assert sb - sa == {};
    forall x | x in b ensures x in a {
      assert x in sb && x !in sb - sa;
    }
  }

  lemma {:induction false} SetSize(a: seq<Item>)
    requires Distinct(a)
    ensures |set x | x in a| == |a|
  {
    if a != [] {
      SetSize(a[1..]);
      assert a == [a[0]] + a[1..];
      assert (set x | x in a) == {a[0]} + set x | x in a[1..];
    }
  }

  // ----- the theorems -----

  /** On trees with slash-free keys the hashed stream tells exactly the trees apart that differ. */
  lemma StreamIdentifiesTree(t: Tree, u: Tree)
    requires Legal(t) && Legal(u) && AllFit(TreeFrames(t)) && AllFit(TreeFrames(u))
    requires KeysIn(t, SLASH_FREE) && KeysIn(u, SLASH_FREE)
    ensures Stream(t) == Stream(u) <==> Same(t, u)
  {
    SameIffCanon(t, u);
    if Stream(t) == Stream(u) {
      EncodeDetermines(TreeFrames(t), TreeFrames(u));
      CanonIsTidy(t);
      CanonIsTidy(u);
      assert TreeFrames(t) + [] == TreeFrames(t) && TreeFrames(u) + [] == TreeFrames(u);
      FramesDetermine(Canon(t), Canon(u), "root", [], []);
    }
  }

  /** The nested tree {a: {b: v}} and the flat tree {a: {}, a/b: v}. */
  function Nested(a: Bytes, b: Bytes, v: Tree): Tree {
    Mapping([Item(a, Mapping([Item(b, v)]))])
  }

  function Flat(a: Bytes, b: Bytes, v: Tree): Tree {
    Mapping([Item(a, Mapping([])), Item(Child(a, b), v)])
  }

  lemma {:induction false} PrefixIsBefore(a: Bytes, more: Bytes)
    requires more != []
    ensures Before(a, a + more)
  {
    if a != [] {
      assert (a + more)[1..] == a[1..] + more;
      PrefixIsBefore(a[1..], more);
    }
  }

  /** Every key with a slash has collisions, one for each value: two different legal trees, one using the key, with
      one stream. */
  lemma SlashCollides(a: Bytes, b: Bytes, v: Tree)
    requires Legal(v)
    ensures Legal(Nested(a, b, v)) && Legal(Flat(a, b, v)) && !Same(Nested(a, b, v), Flat(a, b, v))
    ensures Stream(Nested(a, b, v)) == Stream(Flat(a, b, v))
  {
    PrefixIsBefore(a, "/" + b);
    assert Child(a, b) == a + ("/" + b);
    FramesOfCollision(a, b, v);
  }

  /** The frames of either tree. */
  function CollisionFrames(a: Bytes, b: Bytes, v: Tree): seq<Frame> {
    var name := Child("root", a);
    [Frame("root", "mapping"), Frame(name, "mapping")] + Frames(Canon(v), Child(name, b))
  }

  lemma FramesOfCollision(a: Bytes, b: Bytes, v: Tree)
    ensures TreeFrames(Nested(a, b, v)) == CollisionFrames(a, b, v)
    ensures TreeFrames(Flat(a, b, v)) == CollisionFrames(a, b, v)
  {
    FlatCanon(a, b, v);
    NestedCanon(a, b, v);
    FramesOfFlat(a, b, Canon(v));
    FramesOfNested(a, b, Canon(v));
  }

  lemma FramesOfNested(a: Bytes, b: Bytes, leaf: Tree)
    ensures var name := Child("root", a);
      Frames(Nested(a, b, leaf), "root") ==
        [Frame("root", "mapping"), Frame(name, "mapping")] + Frames(leaf, Child(name, b))
  {
    var name := Child("root", a);
    OneItem(Item(b, leaf), name);
    OneItem(Nested(a, b, leaf).items[0], "root");
  }

  lemma FramesOfFlat(a: Bytes, b: Bytes, leaf: Tree)
    ensures var name := Child("root", a);
      Frames(Flat(a, b, leaf), "root") ==
        [Frame("root", "mapping"), Frame(name, "mapping")] + Frames(leaf, Child(name, b))
  {
    var name := Child("root", a);
    assert Child("root", Child(a, b)) == Child(name, b);
    var flat := Flat(a, b, leaf).items;
    assert flat[1..] == [flat[1]];
    OneItem(flat[1], "root");
    assert Frames(Mapping([]), name) == [Frame(name, "mapping")];
    assert ItemFrames(flat, "root") == Frames(Mapping([]), name) + ItemFrames([flat[1]], "root");
  }

  lemma OneItem(item: Item, path: Bytes)
    ensures ItemFrames([item], path) == Frames(item.value, Child(path, item.key))
    ensures SortItems([item]) == [item]
    ensures CanonItems([item]) == [Item(item.key, Canon(item.value))]
  {
    assert [item][1..] == [];
    assert ItemFrames([item][1..], path) == [];
  }

  lemma NestedCanon(a: Bytes, b: Bytes, v: Tree)
    ensures Canon(Nested(a, b, v)) == Nested(a, b, Canon(v))
  {
    OneItem(Item(b, v), "");
    OneItem(Item(b, Canon(v)), "");
    OneItem(Item(a, Mapping([Item(b, v)])), "");
    OneItem(Item(a, Mapping([Item(b, Canon(v))])), "");
  }

  lemma FlatCanon(a: Bytes, b: Bytes, v: Tree)
    ensures Canon(Flat(a, b, v)) == Flat(a, b, Canon(v))
  {
    var flat, canon := Flat(a, b, v).items, Flat(a, b, Canon(v)).items;
    assert CanonItems(flat) == canon by {
      assert CanonItems([]) == [] && SortItems([]) == [];
      assert Canon(flat[0].value) == canon[0].value;
    }
    FlatIsSorted(a, b, Canon(v));
    hide SortItems, CanonItems;
  }

  lemma FlatIsSorted(a: Bytes, b: Bytes, leaf: Tree)
    ensures SortItems(Flat(a, b, leaf).items) == Flat(a, b, leaf).items
  {
    var flat := Flat(a, b, leaf).items;
    assert flat[1..] == [flat[1]];
    OneItem(flat[1], "");
    PrefixIsBefore(a, "/" + b);
    assert Child(a, b) == a + ("/" + b);
    hide Before;
  }

  /** The hash tells the trees over these keys apart. */
  ghost predicate Identifies(keys: iset<Bytes>) {
    forall t, u :: Hashable(t, keys) && Hashable(u, keys) && Stream(t) == Stream(u) ==> Same(t, u)
  }

  ghost predicate Hashable(t: Tree, keys: iset<Bytes>) {
    Legal(t) && KeysIn(t, keys) && AllFit(TreeFrames(t))
  }

  /** For keys short enough to be hashed at all, and closed under cutting at slashes, the hash tells the trees
      over them apart exactly when no key holds a slash. */
  lemma IdentifiesIffSlashFree(keys: iset<Bytes>)
    requires forall k :: k in keys ==> |Child("root", k)| < Power256(4)
    requires forall a, b :: Child(a, b) in keys ==> a in keys && b in keys
    ensures Identifies(keys) <==> forall k :: k in keys ==> '/' !in k
  {
    if forall k :: k in keys ==> '/' !in k {
      SlashFreeIdentifies(keys);
    }
    forall k | k in keys && '/' in k ensures !Identifies(keys) {
      SlashyKeyConfuses(keys, k);
    }
  }

  lemma SlashFreeIdentifies(keys: iset<Bytes>)
    requires forall k :: k in keys ==> '/' !in k
    ensures Identifies(keys)
  {
    hide Same, Legal, KeysIn, AllFit, Stream, TreeFrames;
    assert keys <= SLASH_FREE;
    forall t, u | Hashable(t, keys) && Hashable(u, keys) && Stream(t) == Stream(u) ensures Same(t, u) {
      MoreKeys(t, keys, SLASH_FREE);
      MoreKeys(u, keys, SLASH_FREE);
      StreamIdentifiesTree(t, u);
    }
  }

  lemma SlashyKeyConfuses(keys: iset<Bytes>, k: Bytes)
    requires k in keys && '/' in k && |Child("root", k)| < Power256(4)
    requires forall a, b :: Child(a, b) in keys ==> a in keys && b in keys
    ensures !Identifies(keys)
  {
    assert Legal(NULL);
    hide Same, Stream, AllFit, TreeFrames, Legal, KeysIn;
    var i :| 0 <= i < |k| && k[i] == '/';
    var a, b := k[..i], k[i + 1..];
    assert k == Child(a, b);
    SlashCollides(a, b, NULL);
    CollisionFits(a, b);
    CollisionKeys(a, b, keys);
    assert Hashable(Nested(a, b, NULL), keys) && Hashable(Flat(a, b, NULL), keys);
  }

  lemma CollisionKeys(a: Bytes, b: Bytes, keys: iset<Bytes>)
    requires a in keys && b in keys && Child(a, b) in keys
    ensures KeysIn(Nested(a, b, NULL), keys) && KeysIn(Flat(a, b, NULL), keys)
  {
    assert KeysIn(NULL, keys) && KeysIn(Mapping([]), keys) && KeysIn(Mapping([Item(b, NULL)]), keys);
  }

  const NULL := Scalar("NoneType", "null")

  lemma CollisionFits(a: Bytes, b: Bytes)
    requires |Child("root", Child(a, b))| < Power256(4)
    ensures AllFit(TreeFrames(Nested(a, b, NULL))) && AllFit(TreeFrames(Flat(a, b, NULL)))
  {
    FramesOfCollision(a, b, NULL);
    var path := Child(Child("root", a), b);
    assert Frames(NULL, path) == [Frame(path, Payload(NULL))];
    assert Power256(4) == 4294967296 && Power256(8) >= 4294967296;
  }

  lemma {:induction false} MoreKeys(t: Tree, keys: iset<Bytes>, more: iset<Bytes>)
    requires KeysIn(t, keys) && keys <= more
    ensures KeysIn(t, more)
  {
    match t {
      case Mapping(items) =>
        forall i | 0 <= i < |items| ensures KeysIn(items[i].value, more) { MoreKeys(items[i].value, keys, more); }
      case List(_, children) =>
        forall i | 0 <= i < |children| ensures KeysIn(children[i], more) { MoreKeys(children[i], keys, more); }
      case _ =>
    }
  }
}
