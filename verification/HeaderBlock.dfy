/** The header section of a message (message.go): records of key, length and value, laid end to end. */
module HeaderBlock {
  import opened Wrappers
  import opened MapOrder
  import opened Bytes

  type Headers = map<I32, bytes>

  type Record = (I32, bytes)

  function RecordBytes(r: Record): bytes {
    PutI32(r.0) + PutU32(Wrap32(|r.1|)) + r.1
  }

  function Flatten(rs: seq<Record>): bytes {
    if rs == [] then [] else RecordBytes(rs[0]) + Flatten(rs[1..])
  }

  /** `rs` covers `data` without gap, overlap or remainder, and every length fits its field. */
  predicate Tiles(rs: seq<Record>, data: bytes) {
    (forall i | 0 <= i < |rs| :: |rs[i].1| < TWO_32) && Flatten(rs) == data
  }

  // ---------- Reading ----------

  /** The record `data` starts with, if it starts with a whole one. */
  function Head(data: bytes): (r: Option<Record>)
    ensures r.Some? ==> 8 + |r.value.1| <= |data|
  {
    if |data| < 8 then None
    else
      var n := GetU32(data[4..8]);
      if 8 + n > |data| then None else Some((GetI32(data[..4]), data[8..8 + n]))
  }

  function Parse(data: bytes): Option<seq<Record>>
    decreases |data|
  {
    if data == [] then Some([])
    else
      match Head(data)
      case None => None
      case Some(r) =>
        match Parse(data[8 + |r.1|..])
        case None => None
        case Some(rs) => Some([r] + rs)
  }

  lemma HeadOfParts(key: bytes, length: bytes, value: bytes, tail: bytes)
    requires |key| == 4 && |length| == 4 && GetU32(length) == |value|
    ensures var data := key + length + value + tail;
            Head(data) == Some((GetI32(key), value)) && data[8 + |value|..] == tail && data != []
  {
    var data := key + length + value + tail;
    assert data[..4] == key && data[4..8] == length && data[8..8 + |value|] == value;
  }

  lemma HeadOfRecord(r: Record, tail: bytes)
    requires |r.1| < TWO_32
    ensures var data := RecordBytes(r) + tail;
            Head(data) == Some(r) && data[8 + |r.1|..] == tail && data != []
  {
    GetOfPut(ToU32(r.0));
    GetOfPut(|r.1|);
    WrapSmall(|r.1|);
    HeadOfParts(PutI32(r.0), PutU32(|r.1|), r.1, tail);
  }

  lemma RecordOfHead(data: bytes)
    requires Head(data).Some?
    ensures var r := Head(data).value;
            |r.1| < TWO_32 && data == RecordBytes(r) + data[8 + |r.1|..]
  {
    var r := Head(data).value;
    GetPut(data[..4]);
    GetPut(data[4..8]);
    assert data[..4][..4] == data[..4] && data[4..8][..4] == data[4..8];
    assert RecordBytes(r) == data[..4] + data[4..8] + data[8..8 + |r.1|];
  }

  lemma {:induction false} ParseTiles(data: bytes)
    requires Parse(data).Some?
    ensures Tiles(Parse(data).value, data)
    decreases |data|
  {
    if data != [] {
      var r := Head(data).value;
      RecordOfHead(data);
      ParseTiles(data[8 + |r.1|..]);
      var rs := Parse(data[8 + |r.1|..]).value;
      assert ([r] + rs)[1..] == rs;
    }
  }

  lemma {:induction false} TilesParse(rs: seq<Record>, data: bytes)
    requires Tiles(rs, data)
    ensures Parse(data) == Some(rs)
    decreases |rs|
  {
    if rs != [] {
      HeadOfRecord(rs[0], Flatten(rs[1..]));
      TilesParse(rs[1..], Flatten(rs[1..]));
      assert rs == [rs[0]] + rs[1..];
    }
  }

  function ReadHeaders(data: bytes): Option<Headers> {
    match Parse(data)
    case None => None
    case Some(rs) => Some(Fold(rs))
  }

  /** Bytes read as headers exactly when they are a gap-free tiling, and then as its last-wins map. */
  lemma ReadsExactlyTilings(data: bytes)
    ensures ReadHeaders(data).Some? <==> exists rs: seq<Record> :: Tiles(rs, data)
    ensures forall rs: seq<Record> | Tiles(rs, data) :: ReadHeaders(data) == Some(Fold(rs))
  {
    if Parse(data).Some? { ParseTiles(data); }
    forall rs: seq<Record> | Tiles(rs, data) ensures Parse(data) == Some(rs) { TilesParse(rs, data); }
  }

  /** Having read `done` up to `i`, what is left decides the outcome. */
  predicate Reads(data: bytes, i: nat, done: seq<Record>)
    requires i <= |data|
  {
    match Parse(data[i..])
    case None => Parse(data) == None
    case Some(rest) => Parse(data) == Some(done + rest)
  }

  lemma ReadsStep(data: bytes, i: nat, done: seq<Record>)
    requires i < |data| && Reads(data, i, done)
    ensures match Head(data[i..])
            case None => Parse(data) == None
            case Some(r) => i + 8 + |r.1| <= |data| && Reads(data, i + 8 + |r.1|, done + [r])
                            && Fold(done + [r]) == Fold(done)[r.0 := r.1]
  {
    var here := data[i..];
    if Head(here).Some? {
      var r := Head(here).value;
      assert here[8 + |r.1|..] == data[i + 8 + |r.1|..];
      if Parse(here[8 + |r.1|..]).Some? {
        var rest := Parse(here[8 + |r.1|..]).value;
        assert done + ([r] + rest) == (done + [r]) + rest;
      }
      assert (done + [r])[..|done|] == done;
    }
  }

  lemma HeadAt(data: bytes, i: nat)
    requires i + 8 <= |data|
    ensures var n := GetU32(data[i + 4..i + 8]);
            Head(data[i..]) == if i + 8 + n > |data| then None
                               else Some((GetI32(data[i..i + 4]), data[i + 8..i + 8 + n]))
  {
    var here, n := data[i..], GetU32(data[i + 4..i + 8]);
    assert here[..4] == data[i..i + 4] && here[4..8] == data[i + 4..i + 8];
    if i + 8 + n <= |data| { assert here[8..8 + n] == data[i + 8..i + 8 + n]; }
  }

  method UnmarshalHeaders(data: bytes) returns (r: Option<Headers>)
    ensures r == ReadHeaders(data)
  {
    if 0 < |data| < 8 { return None; }
    var out: Headers := map[];
    var i := 0;
    ghost var done: seq<Record> := [];
    assert Reads(data, 0, []) by {
      assert data[0..] == data;
      assert forall rest: seq<Record> :: [] + rest == rest;
    }
    while i < |data|
      invariant 0 <= i <= |data| && Reads(data, i, done) && out == Fold(done)
    {
      ReadsStep(data, i, done);
      if i + 8 > |data| { return None; }
      HeadAt(data, i);
      var key := GetI32(data[i..i + 4]);
      var length := GetU32(data[i + 4..i + 8]);
      if i + 8 + length > |data| { return None; }
      out := out[key := data[i + 8..i + 8 + length]];
      done := done + [(key, data[i + 8..i + 8 + length])];
      i := i + 8 + length;
    }
    assert data[i..] == [] && done + [] == done;
    return Some(out);
  }

  // ---------- Writing ----------

  ghost predicate IsBlock(headers: Headers, data: bytes) {
    exists order :: IsOrder(order, headers) && Flatten(PairsOf(headers, order)) == data
  }

  predicate LengthsFit(headers: Headers) {
    forall k | k in headers :: |headers[k]| < TWO_32
  }

  lemma BlockReadsBack(headers: Headers, data: bytes)
    requires IsBlock(headers, data) && LengthsFit(headers)
    ensures Parse(data).Some? && Fold(Parse(data).value) == headers
  {
    var order :| IsOrder(order, headers) && Flatten(PairsOf(headers, order)) == data;
    TilesParse(PairsOf(headers, order), data);
    FoldPairsOf(headers, order);
  }

  lemma {:induction false} FlattenAppend(rs: seq<Record>, r: Record)
    ensures Flatten(rs + [r]) == Flatten(rs) + RecordBytes(r)
  {
    if rs == [] {
      assert [r][1..] == [];
    } else {
      FlattenAppend(rs[1..], r);
      assert (rs + [r])[1..] == rs[1..] + [r];
    }
  }

  /** marshalHeaders, ranging over the map in an order of Go's choosing. */
  method MarshalHeaders(headers: Headers) returns (data: bytes)
    ensures IsBlock(headers, data)
  {
    data := [];
    var todo := headers.Keys;
    ghost var order: seq<I32> := [];
    while todo != {}
      invariant todo <= headers.Keys
      invariant forall k :: k in order <==> k in headers && k !in todo
      invariant forall i, j | 0 <= i < j < |order| :: order[i] != order[j]
      invariant data == Flatten(PairsOf(headers, order))
      decreases todo
    {
      var k :| k in todo;
      assert PairsOf(headers, order + [k]) == PairsOf(headers, order) + [(k, headers[k])];
      FlattenAppend(PairsOf(headers, order), (k, headers[k]));
      data := data + PutI32(k) + PutU32(Wrap32(|headers[k]|)) + headers[k];
      order := order + [k];
      todo := todo - {k};
    }
    assert IsOrder(order, headers);
  }
}
