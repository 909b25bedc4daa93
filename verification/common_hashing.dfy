/** stable_tree_hash (common/hashing.py): the byte stream it feeds to SHA-256, and when two
    trees give the same stream. A byte is a character of code below 256; a key is its UTF-8 form. */
module TreeHashing {
  type Bytes = string

  datatype Tree =
    | Mapping(items: seq<Item>)
    | List(tuple: bool, children: seq<Tree>)
    | Blob(data: Bytes)
    | Scalar(typeName: Bytes, json: Bytes)
    | Array(dtype: Bytes, shape: seq<nat>, data: Bytes)

  datatype Item = Item(key: Bytes, value: Tree)

  // ----- order of keys -----

  /** Byte order, which for UTF-8 is the order of code points. */
  predicate Before(a: Bytes, b: Bytes) {
    if b == [] then false
    else if a == [] then true
    else a[0] < b[0] || (a[0] == b[0] && Before(a[1..], b[1..]))
  }

  lemma {:induction false} BeforeIsTotal(a: Bytes, b: Bytes)
    ensures a == b || Before(a, b) || Before(b, a)
  {
    if a != [] && b != [] && a[0] == b[0] {
      BeforeIsTotal(a[1..], b[1..]);
      assert a == [a[0]] + a[1..] && b == [b[0]] + b[1..];
    }
  }

  lemma {:induction false} BeforeIsTransitive(a: Bytes, b: Bytes, c: Bytes)
    requires Before(a, b) && Before(b, c)
    ensures Before(a, c)
  {
    if a != [] && a[0] == b[0] && b[0] == c[0] {
      BeforeIsTransitive(a[1..], b[1..], c[1..]);
    }
  }

  lemma {:induction false} BeforeIsStrict(a: Bytes)
    ensures !Before(a, a)
  {
    if a != [] {
      BeforeIsStrict(a[1..]);
    }
  }

  /** Insertion into a list sorted by key. */
  function Insert(item: Item, sorted: seq<Item>): (r: seq<Item>)
    ensures forall x :: x in r <==> x == item || x in sorted
    ensures |r| == |sorted| + 1
  {
    if sorted == [] then [item]
    else if Before(item.key, sorted[0].key) then [item] + sorted
    else
      var r := [sorted[0]] + Insert(item, sorted[1..]);
      assert forall x :: x in sorted <==> x == sorted[0] || x in sorted[1..];
      r
  }

  /** The order `sorted(item, key=str)` gives. */
  function SortItems(items: seq<Item>): (r: seq<Item>)
    ensures forall x :: x in r <==> x in items
    ensures |r| == |items|
  {
    if items == [] then []
    else
      assert forall x :: x in items <==> x == items[0] || x in items[1..];
      Insert(items[0], SortItems(items[1..]))
  }

  // ----- canonical trees -----

  /** ascontiguousarray turns a zero-dimensional array into one of shape (1,). */
  function CanonShape(shape: seq<nat>): seq<nat> {
    if shape == [] then [1] else shape
  }

  /** Mapping order, the list/tuple distinction and the zero-dimensional shape are not hashed. */
  function Canon(t: Tree): Tree {
    match t
    case Mapping(items) => Mapping(SortItems(CanonItems(items)))
    case List(_, children) => List(false, CanonAll(children))
    case Array(dtype, shape, data) => Array(dtype, CanonShape(shape), data)
    case _ => t
  }

  function CanonItems(items: seq<Item>): (r: seq<Item>)
    ensures |r| == |items|
    ensures forall i :: 0 <= i < |items| ==> r[i] == Item(items[i].key, Canon(items[i].value))
  {
    if items == [] then [] else [Item(items[0].key, Canon(items[0].value))] + CanonItems(items[1..])
  }

  function CanonAll(children: seq<Tree>): (r: seq<Tree>)
    ensures |r| == |children|
    ensures forall i :: 0 <= i < |children| ==> r[i] == Canon(children[i])
  {
    if children == [] then [] else [Canon(children[0])] + CanonAll(children[1..])
  }

  // ----- the frames of a canonical tree, in pre-order -----

  datatype Frame = Frame(name: Bytes, payload: Bytes)

  function Digit(n: nat): char
    requires n < 10
  {
    "0123456789"[n]
  }

  function Decimal(n: nat): Bytes {
    if n < 10 then [Digit(n)] else Decimal(n / 10) + [Digit(n % 10)]
  }

  function Commas(shape: seq<nat>): Bytes {
    if |shape| == 0 then ""
    else if |shape| == 1 then Decimal(shape[0])
    else Decimal(shape[0]) + "," + Commas(shape[1..])
  }

  /** The JSON object with dtype and shape. */
  function Metadata(dtype: Bytes, shape: seq<nat>): Bytes {
    "{\"dtype\":\"" + dtype + "\",\"shape\":[" + Commas(shape) + "]}"
  }

  function Payload(t: Tree): Bytes {
    match t
    case Mapping(_) => "mapping"
    case List(_, children) => "sequence:" + Decimal(|children|)
    case Blob(data) => "bytes:" + data
    case Scalar(typeName, json) => "scalar:" + typeName + ":" + json
    case Array(dtype, shape, data) => "array:" + Metadata(dtype, CanonShape(shape)) + ":" + data
  }

  function Child(path: Bytes, key: Bytes): Bytes {
    path + "/" + key
  }

  function Frames(t: Tree, path: Bytes): seq<Frame> {
    [Frame(path, Payload(t))] +
    match t
    case Mapping(items) => ItemFrames(items, path)
    case List(_, children) => ListFrames(children, 0, path)
    case _ => []
  }

  function ItemFrames(items: seq<Item>, path: Bytes): seq<Frame> {
    if items == [] then [] else Frames(items[0].value, Child(path, items[0].key)) + ItemFrames(items[1..], path)
  }

  function ListFrames(children: seq<Tree>, index: nat, path: Bytes): seq<Frame> {
    if children == [] then []
    else Frames(children[0], Child(path, Decimal(index))) + ListFrames(children[1..], index + 1, path)
  }

  // ----- the bytes of the frames -----

  /** `n.to_bytes(width, "big")`. */
  function BigEndian(n: nat, width: nat): (r: Bytes)
    ensures |r| == width
  {
    if width == 0 then "" else BigEndian(n / 256, width - 1) + [(n % 256) as char]
  }

  function Power256(width: nat): nat {
    if width == 0 then 1 else 256 * Power256(width - 1)
  }

  /** to_bytes raises OverflowError for lengths that need more bytes than it is given. */
  predicate Fits(f: Frame) {
    |f.name| < Power256(4) && |f.payload| < Power256(8)
  }

  predicate AllFit(fs: seq<Frame>) {
    forall i :: 0 <= i < |fs| ==> Fits(fs[i])
  }

  function EncodeFrame(f: Frame): Bytes {
    BigEndian(|f.name|, 4) + f.name + BigEndian(|f.payload|, 8) + f.payload
  }

  function Encode(fs: seq<Frame>): Bytes {
    if fs == [] then "" else EncodeFrame(fs[0]) + Encode(fs[1..])
  }

  /** What a tree hashes: every frame from "root" down. */
  function TreeFrames(t: Tree): seq<Frame> {
    Frames(Canon(t), "root")
  }

  function Stream(t: Tree): Bytes {
    Encode(TreeFrames(t))
  }

  // ----- the code: one digest updated in place -----

  /** A hash object: what it has been fed so far. */
  class Hasher {
    var fed: Bytes

    constructor ()
      ensures fed == ""
    {
      fed := "";
    }

    method Update(data: Bytes)
      modifies this
      ensures fed == old(fed) + data
    {
      fed := fed + data;
    }
  }

  /** `_framed`; false stands for OverflowError. */
  method Framed(digest: Hasher, name: Bytes, payload: Bytes) returns (ok: bool)
    modifies digest
    ensures ok <==> Fits(Frame(name, payload))
    ensures ok ==> digest.fed == old(digest.fed) + EncodeFrame(Frame(name, payload))
  {
    hide BigEndian, Power256;
    if |name| >= Power256(4) {
      return false;
    }
    digest.Update(BigEndian(|name|, 4));
    digest.Update(name);
    if |payload| >= Power256(8) {
      return false;
    }
    digest.Update(BigEndian(|payload|, 8));
    digest.Update(payload);
    FourPieces(old(digest.fed), BigEndian(|name|, 4), name, BigEndian(|payload|, 8), payload);
    return true;
  }

  lemma FourPieces(fed: Bytes, a: Bytes, b: Bytes, c: Bytes, d: Bytes)
    ensures fed + a + b + c + d == fed + (a + b + c + d)
  {
    Associative(fed, a, b);
    Associative(fed, a + b, c);
    Associative(fed, a + b + c, d);
  }

  lemma Associative(a: Bytes, b: Bytes, c: Bytes)
    ensures (a + b) + c == a + (b + c)
  {
  }

  lemma {:induction false} EncodeAppend(fs: seq<Frame>, gs: seq<Frame>)
    ensures Encode(fs + gs) == Encode(fs) + Encode(gs)
  {
    if fs == [] {
      assert fs + gs == gs;
    } else {
      assert (fs + gs)[1..] == fs[1..] + gs;
      EncodeAppend(fs[1..], gs);
      Associative(EncodeFrame(fs[0]), Encode(fs[1..]), Encode(gs));
    }
  }

  /** `walk`: feeds the frames of `t` to the digest, children of a mapping in key order. */
  method Walk(digest: Hasher, t: Tree, path: Bytes) returns (ok: bool)
    modifies digest
    ensures ok <==> AllFit(Frames(Canon(t), path))
    ensures ok ==> digest.fed == old(digest.fed) + Encode(Frames(Canon(t), path))
    decreases t, 1
  {
    ok := Framed(digest, path, Payload(t));
    HeadAndRest(Canon(t), path, old(digest.fed));
    if ok {
      match t {
        case Mapping(items) => ok := WalkMapping(digest, items, path);
        case List(_, children) => ok := WalkList(digest, children, path);
        case _ =>
      }
    }
  }

  method WalkMapping(digest: Hasher, items: seq<Item>, path: Bytes) returns (ok: bool)
    modifies digest
    ensures ok <==> AllFit(ItemFrames(SortItems(CanonItems(items)), path))
    ensures ok ==> digest.fed == old(digest.fed) + Encode(ItemFrames(SortItems(CanonItems(items)), path))
    decreases items, 0
  {
    var sorted := SortItems(items);
    SortCommutes(items);
    ghost var canonical := CanonItems(sorted);
    ghost var done := [];
    var i := 0;
    while i < |sorted|
      invariant 0 <= i <= |sorted|
      invariant done == ItemFrames(canonical[..i], path) && AllFit(done)
      invariant digest.fed == old(digest.fed) + Encode(done)
    {
      assert sorted[i] in items;
      ghost var next := Frames(canonical[i].value, Child(path, canonical[i].key));
      ItemFramesSplit(canonical, i, path);
      AppendFed(old(digest.fed), done, next);
      ok := Walk(digest, sorted[i].value, Child(path, sorted[i].key));
      if !ok {
        UnfitPrefix(done + next, ItemFrames(canonical, path));
        return;
      }
      done := done + next;
      i := i + 1;
    }
    assert canonical[..i] == canonical;
    return true;
  }

  method WalkList(digest: Hasher, children: seq<Tree>, path: Bytes) returns (ok: bool)
    modifies digest
    ensures ok <==> AllFit(ListFrames(CanonAll(children), 0, path))
    ensures ok ==> digest.fed == old(digest.fed) + Encode(ListFrames(CanonAll(children), 0, path))
    decreases children, 0
  {
    ghost var canonical := CanonAll(children);
    ghost var done := [];
    var i := 0;
    while i < |children|
      invariant 0 <= i <= |children|
      invariant done == ListFrames(canonical[..i], 0, path) && AllFit(done)
      invariant digest.fed == old(digest.fed) + Encode(done)
    {
      var name := Child(path, Decimal(i));
      ghost var next := Frames(canonical[i], name);
      ListFramesSplit(canonical, i, 0, path);
      assert ListFrames(canonical[..i + 1], 0, path) == done + next;
      AppendFed(old(digest.fed), done, next);
      ok := Walk(digest, children[i], name);
      if !ok {
        UnfitPrefix(done + next, ListFrames(canonical, 0, path));
        return;
      }
      done := done + next;
      i := i + 1;
    }
    assert canonical[..i] == canonical;
    return true;
  }

  lemma UnfitPrefix(fs: seq<Frame>, gs: seq<Frame>)
    requires fs <= gs && !AllFit(fs)
    ensures !AllFit(gs)
  {
    var i :| 0 <= i < |fs| && !Fits(fs[i]);
    assert gs[i] == fs[i];
  }

  lemma AllFitConcat(fs: seq<Frame>, gs: seq<Frame>)
    ensures AllFit(fs + gs) <==> AllFit(fs) && AllFit(gs)
  {
    if AllFit(fs + gs) {
      forall i | 0 <= i < |fs| ensures Fits(fs[i]) { assert fs[i] == (fs + gs)[i]; }
      forall i | 0 <= i < |gs| ensures Fits(gs[i]) { assert gs[i] == (fs + gs)[|fs| + i]; }
    }
  }

  lemma AppendFed(start: Bytes, fs: seq<Frame>, gs: seq<Frame>)
    ensures start + Encode(fs + gs) == (start + Encode(fs)) + Encode(gs)
    ensures AllFit(fs + gs) <==> AllFit(fs) && AllFit(gs)
  {
    EncodeAppend(fs, gs);
    Associative(start, Encode(fs), Encode(gs));
    AllFitConcat(fs, gs);
  }

  /** The frames of a tree's children. */
  function Below(t: Tree, path: Bytes): seq<Frame> {
    match t
    case Mapping(items) => ItemFrames(items, path)
    case List(_, children) => ListFrames(children, 0, path)
    case _ => []
  }

  lemma HeadAndRest(t: Tree, path: Bytes, start: Bytes)
    ensures var head := Frame(path, Payload(t));
      && (AllFit(Frames(t, path)) <==> Fits(head) && AllFit(Below(t, path)))
      && start + Encode(Frames(t, path)) == (start + EncodeFrame(head)) + Encode(Below(t, path))
  {
    var head := Frame(path, Payload(t));
    assert Frames(t, path) == [head] + Below(t, path);
    AppendFed(start, [head], Below(t, path));
    assert [head][1..] == [];
    assert Encode([head]) == EncodeFrame(head) + "" == EncodeFrame(head);
  }

  /** Sorting looks at keys only. */
  lemma {:induction false} InsertCommutes(item: Item, sorted: seq<Item>)
    ensures CanonItems(Insert(item, sorted)) == Insert(Item(item.key, Canon(item.value)), CanonItems(sorted))
  {
    if sorted != [] && !Before(item.key, sorted[0].key) {
      InsertCommutes(item, sorted[1..]);
      assert CanonItems(sorted)[1..] == CanonItems(sorted[1..]);
    }
  }

  lemma {:induction false} SortCommutes(items: seq<Item>)
    ensures CanonItems(SortItems(items)) == SortItems(CanonItems(items))
  {
    if items != [] {
      SortCommutes(items[1..]);
      assert CanonItems(items)[1..] == CanonItems(items[1..]);
      InsertCommutes(items[0], SortItems(items[1..]));
    }
  }

  /** The frames of the first i + 1 items end with those of item i. */
  lemma {:induction false} ItemFramesSplit(items: seq<Item>, i: nat, path: Bytes)
    requires i < |items|
    ensures ItemFrames(items[..i + 1], path)
      == ItemFrames(items[..i], path) + Frames(items[i].value, Child(path, items[i].key))
    ensures ItemFrames(items[..i + 1], path) <= ItemFrames(items, path)
  {
    if i == 0 {
      assert items[..1][1..] == [] && items[..0] == [];
    } else {
      var rest := items[1..];
      ItemFramesSplit(rest, i - 1, path);
      assert rest[..i] == items[..i + 1][1..] && rest[..i - 1] == items[..i][1..];
      var first := Frames(items[0].value, Child(path, items[0].key));
      assert ItemFrames(items[..i + 1], path) == first + ItemFrames(rest[..i], path);
      assert ItemFrames(items[..i], path) == first + ItemFrames(rest[..i - 1], path);
    }
  }

  lemma {:induction false} ListFramesSplit(children: seq<Tree>, i: nat, index: nat, path: Bytes)
    requires i < |children|
    ensures ListFrames(children[..i + 1], index, path)
      == ListFrames(children[..i], index, path) + Frames(children[i], Child(path, Decimal(index + i)))
    ensures ListFrames(children[..i + 1], index, path) <= ListFrames(children, index, path)
  {
    if i == 0 {
      assert children[..1][1..] == [] && children[..0] == [];
    } else {
      var rest := children[1..];
      ListFramesSplit(rest, i - 1, index + 1, path);
      FirstOfList(children, i + 1, index, path);
      FirstOfList(children, i, index, path);
      PutFirst(Frames(children[0], Child(path, Decimal(index))), ListFrames(rest[..i - 1], index + 1, path),
               Frames(children[i], Child(path, Decimal(index + i))), ListFrames(rest, index + 1, path));
      hide ListFrames, Frames, Child, Decimal;
    }
  }

  lemma PutFirst(first: seq<Frame>, a: seq<Frame>, b: seq<Frame>, all: seq<Frame>)
    requires a + b <= all
    ensures first + (a + b) == first + a + b && first + (a + b) <= first + all
  {
  }

  lemma FirstOfList(children: seq<Tree>, n: nat, index: nat, path: Bytes)
    requires 0 < n <= |children|
    ensures var first := Frames(children[0], Child(path, Decimal(index)));
      && ListFrames(children[..n], index, path) == first + ListFrames(children[1..][..n - 1], index + 1, path)
      && ListFrames(children, index, path) == first + ListFrames(children[1..], index + 1, path)
  {
    hide Frames, Child;
    assert children[..n][1..] == children[1..][..n - 1];
  }

  /** `stable_tree_hash` up to the final SHA-256: what the digest has been fed. */
  method StableTreeStream(t: Tree) returns (stream: Bytes, ok: bool)
    ensures ok <==> AllFit(TreeFrames(t))
    ensures ok ==> stream == Stream(t)
  {
    var digest := new Hasher();
    ok := Walk(digest, t, "root");
    stream := digest.fed;
  }
}
