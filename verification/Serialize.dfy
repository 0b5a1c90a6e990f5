/** The wire format of data values: a pre-order walk of headers, read back with a cursor. */
module Serialize {
  import opened Basics

  /** A value as its readers see it: nothing, or a header and children. */
  datatype Value = Nil | Node(tag: nat, aux: nat, fields: seq<Value>)

  const CON: nat := 0
  const TUPLE: nat := 1
  const CLOSURE: nat := 2
  const INT: nat := 5
  const OPNODE: nat := 6
  const NAT: nat := 8

  const NULL_TAG: nat := 0xFFFF_FFFF

  predicate SerializableTag(t: nat) {
    t == CON || t == TUPLE || t == INT || t == NAT
  }

  // ---- machine words ----

  function Power(k: nat): nat {
    if k == 0 then 1 else 256 * Power(k - 1)
  }

  /** `n` in `k` little-endian bytes. */
  function Word(n: nat, k: nat): (r: seq<Byte>)
    ensures |r| == k
  {
    if k == 0 then [] else [n % 256] + Word(n / 256, k - 1)
  }

  function Unword(bytes: seq<Byte>): nat {
    if bytes == [] then 0 else bytes[0] + 256 * Unword(bytes[1..])
  }

  lemma {:induction false} WordReads(n: nat, k: nat)
    requires n < Power(k)
    ensures Unword(Word(n, k)) == n
  {
    if k > 0 { WordReads(n / 256, k - 1); }
  }

  lemma Widths()
    ensures Power(4) == 0x1_0000_0000 && Power(8) == 0x1_0000_0000_0000_0000
  {
    assert Power(2) == 0x1_0000;
    assert Power(3) == 0x100_0000;
    assert Power(4) == 0x1_0000_0000;
    assert Power(5) == 0x100_0000_0000;
    assert Power(6) == 0x1_0000_0000_0000;
    assert Power(7) == 0x100_0000_0000_0000;
  }

  // ---- writing ----

  /** Header and children fit their fields. */
  predicate Fits(v: Value) {
    match v
    case Nil => true
    case Node(t, aux, fs) =>
      t < NULL_TAG && aux < 0x1_0000_0000_0000_0000 && |fs| < 0x1_0000_0000 && forall k :: 0 <= k < |fs| ==> Fits(fs[k])
  }

  /** First-order data all the way down. */
  predicate IsData(v: Value) {
    match v
    case Nil => true
    case Node(t, _, fs) => SerializableTag(t) && forall k :: 0 <= k < |fs| ==> IsData(fs[k])
  }

  function Encode(v: Value): (r: seq<Byte>)
    decreases v, 1
  {
    match v
    case Nil => Word(NULL_TAG, 4)
    case Node(t, aux, fs) => Word(t, 4) + Word(|fs|, 4) + Word(aux, 8) + EncodeAll(fs)
  }

  function EncodeAll(vs: seq<Value>): seq<Byte>
    decreases vs, 0
  {
    if vs == [] then [] else EncodeAll(vs[..|vs| - 1]) + Encode(vs[|vs| - 1])
  }

  // ---- reading ----

  datatype Result<+T> = Ok(value: T, pos: nat) | Underrun {
    predicate IsFailure() { Underrun? }

    function PropagateFailure<U>(): Result<U>
      requires Underrun?
    {
      Result<U>.Underrun
    }

    function Extract(): (T, nat)
      requires Ok?
    {
      (value, pos)
    }
  }

  function Take(buf: seq<Byte>, pos: nat, k: nat): (r: Result<nat>)
    ensures r.Ok? <==> pos + k <= |buf|
    ensures r.Ok? ==> r.pos == pos + k
  {
    if pos + k <= |buf| then Ok(Unword(buf[pos..pos + k]), pos + k) else Underrun
  }

  function Decode(buf: seq<Byte>, pos: nat): (r: Result<Value>)
    requires pos <= |buf|
    ensures r.Ok? ==> pos < r.pos <= |buf|
    decreases |buf| - pos, 0, 0
  {
    var t :- Take(buf, pos, 4);
    if t.0 == NULL_TAG then Ok(Nil, t.1)
    else
      var nf :- Take(buf, t.1, 4);
      var aux :- Take(buf, nf.1, 8);
      var fs :- DecodeMany(buf, aux.1, nf.0);
      Ok(Node(t.0, aux.0, fs.0), fs.1)
  }

  function DecodeMany(buf: seq<Byte>, pos: nat, n: nat): (r: Result<seq<Value>>)
    requires pos <= |buf|
    ensures r.Ok? ==> pos <= r.pos <= |buf| && |r.value| == n
    decreases |buf| - pos, 1, n
  {
    if n == 0 then Ok([], pos)
    else
      var front :- DecodeMany(buf, pos, n - 1);
      var last :- Decode(buf, front.1);
      Ok(front.0 + [last.0], last.1)
  }

  // ---- round trip ----

  lemma WordTaken(pre: seq<Byte>, n: nat, k: nat, post: seq<Byte>)
    requires n < Power(k)
    ensures Take(pre + Word(n, k) + post, |pre|, k) == Ok(n, |pre| + k)
  {
    WordReads(n, k);
    assert (pre + Word(n, k) + post)[|pre|..|pre| + k] == Word(n, k);
  }

  /** Reading a written value, whatever is around it, returns it and consumes exactly its bytes. */
  lemma {:induction false} RoundTrip(pre: seq<Byte>, v: Value, post: seq<Byte>)
    requires Fits(v)
    ensures Decode(pre + Encode(v) + post, |pre|) == Ok(v, |pre| + |Encode(v)|)
    decreases v, 1
  {
    hide Word, Unword, Power, Take, EncodeAll, DecodeMany;
    Widths();
    var buf := pre + Encode(v) + post;
    match v
    case Nil =>
      assert buf == pre + Word(NULL_TAG, 4) + post;
      WordTaken(pre, NULL_TAG, 4, post);
    case Node(t, aux, fs) =>
      var wt, wn, wa, wf := Word(t, 4), Word(|fs|, 4), Word(aux, 8), EncodeAll(fs);
      WordTaken(pre, t, 4, wn + wa + wf + post);
      assert buf == pre + wt + (wn + wa + wf + post);
      WordTaken(pre + wt, |fs|, 4, wa + wf + post);
      assert buf == pre + wt + wn + (wa + wf + post);
      WordTaken(pre + wt + wn, aux, 8, wf + post);
      assert buf == pre + wt + wn + wa + (wf + post);
      RoundTripAll(pre + wt + wn + wa, fs, post);
      assert buf == pre + wt + wn + wa + wf + post;
  }

  lemma {:induction false} RoundTripAll(pre: seq<Byte>, vs: seq<Value>, post: seq<Byte>)
    requires forall k :: 0 <= k < |vs| ==> Fits(vs[k]) == true
    ensures DecodeMany(pre + EncodeAll(vs) + post, |pre|, |vs|) == Ok(vs, |pre| + |EncodeAll(vs)|)
    decreases vs, 0
  {
    hide Fits, Encode, Decode;
    if vs != [] {
      var front, last := vs[..|vs| - 1], vs[|vs| - 1];
      var buf := pre + EncodeAll(vs) + post;
      assert front + [last] == vs;
      RoundTripAll(pre, front, Encode(last) + post);
      assert buf == pre + EncodeAll(front) + (Encode(last) + post);
      RoundTrip(pre + EncodeAll(front), last, post);
      assert buf == pre + EncodeAll(front) + Encode(last) + post;
      assert DecodeMany(buf, |pre|, |vs| - 1) == Ok(front, |pre| + |EncodeAll(front)|);
    }
  }

  /** A value that fits is read back from its bytes alone: every first-order value has an encoding and is
      recovered from it. */
  lemma DataRecovered(d: Data)
    requires DataFits(d)
    ensures IsData(ValueOf(d)) && Decode(Encode(ValueOf(d)), 0) == Ok(ValueOf(d), |Encode(ValueOf(d))|)
  {
    hide Encode, Decode, Fits;
    DataIsData(d);
    DataFitsValue(d);
    RoundTrip([], ValueOf(d), []);
    assert [] + Encode(ValueOf(d)) + [] == Encode(ValueOf(d));
  }

  function Little(a: nat, b: nat, c: nat, d: nat): nat {
    a + 0x100 * b + 0x1_0000 * c + 0x100_0000 * d
  }

  /** The bytes of a node: tag, number of children and auxiliary word, each with its least significant byte
      first, and then the children. */
  lemma Layout(t: nat, aux: nat, fs: seq<Value>) returns (tag: seq<Byte>, count: seq<Byte>, word: seq<Byte>)
    requires t < 0x1_0000_0000 && |fs| < 0x1_0000_0000 && aux < 0x1_0000_0000_0000_0000
    ensures Encode(Node(t, aux, fs)) == tag + count + word + EncodeAll(fs)
    ensures |tag| == |count| == 4 && |word| == 8
    ensures t == Little(tag[0], tag[1], tag[2], tag[3]) && |fs| == Little(count[0], count[1], count[2], count[3])
    ensures aux == Little(word[0], word[1], word[2], word[3]) + 0x1_0000_0000 * Little(word[4], word[5], word[6], word[7])
    ensures Encode(Nil) == [255, 255, 255, 255]
  {
    hide Word, EncodeAll;
    tag, count, word := Word(t, 4), Word(|fs|, 4), Word(aux, 8);
    ShortWord(t);
    ShortWord(|fs|);
    LongWord(aux);
    NoValue();
  }

  lemma ShortWord(n: nat)
    requires n < 0x1_0000_0000
    ensures var b := Word(n, 4); n == Little(b[0], b[1], b[2], b[3])
  {
    hide Word, Unword, Power;
    Widths();
    WordReads(n, 4);
    FourBytes(Word(n, 4));
  }

  lemma LongWord(n: nat)
    requires n < 0x1_0000_0000_0000_0000
    ensures var b := Word(n, 8); n == Little(b[0], b[1], b[2], b[3]) + 0x1_0000_0000 * Little(b[4], b[5], b[6], b[7])
  {
    hide Word, Unword, Power;
    Widths();
    var b := Word(n, 8);
    WordReads(n, 8);
    EightBytes(b);
    FourBytes(b[4..]);
  }

  lemma NoValue()
    ensures Word(0xFFFF_FFFF, 4) == [255, 255, 255, 255]
  {
    assert Word(255, 1) == [255];
    assert Word(0xFFFF, 2) == [255, 255];
    assert Word(0xFF_FFFF, 3) == [255, 255, 255];
  }

  lemma FourBytes(b: seq<Byte>)
    requires |b| == 4
    ensures Unword(b) == Little(b[0], b[1], b[2], b[3])
  {
    assert b[1..][1..] == b[2..] && b[2..][1..] == b[3..] && b[3..][1..] == [];
    var u3, u2, u1 := Unword(b[3..]), Unword(b[2..]), Unword(b[1..]);
    assert u1 == b[1] as int + 256 * u2 && u2 == b[2] as int + 256 * u3 && u3 == b[3] as int + 256 * Unword([]);
  }

  lemma EightBytes(b: seq<Byte>)
    requires |b| == 8
    ensures Unword(b) == Little(b[0], b[1], b[2], b[3]) + 0x1_0000_0000 * Unword(b[4..])
  {
    assert b[1..][1..] == b[2..] && b[2..][1..] == b[3..] && b[3..][1..] == b[4..];
    var u3, u2, u1 := Unword(b[3..]), Unword(b[2..]), Unword(b[1..]);
    assert u1 == b[1] as int + 256 * u2 && u2 == b[2] as int + 256 * u3 && u3 == b[3] as int + 256 * Unword(b[4..]);
  }

  /** Different values have different encodings, and none is a proper prefix of another's. */
  lemma EncodePrefixFree(v: Value, w: Value, post: seq<Byte>)
    requires Fits(v) && Fits(w) && Encode(v) + post == Encode(w)
    ensures v == w && post == []
  {
    hide Fits, Encode, Decode;
    RoundTrip([], v, post);
    RoundTrip([], w, []);
    assert [] + Encode(v) + post == [] + Encode(w) + [];
  }

  // ---- which values are data ----

  /** First-order runtime values: nothing, a constructor, a tuple, an integer and a natural number. */
  datatype Data =
    | Absent
    | Constructed(con: nat, fields: seq<Data>)
    | Product(fields: seq<Data>)
    | Integer(word: nat)
    | Natural(count: nat)

  /** The value a reader sees. */
  function ValueOf(d: Data): Value {
    match d
    case Absent => Nil
    case Constructed(c, xs) => Node(0, c, seq(|xs|, k requires 0 <= k < |xs| => ValueOf(xs[k])))
    case Product(xs) => Node(1, 0, seq(|xs|, k requires 0 <= k < |xs| => ValueOf(xs[k])))
    case Integer(w) => Node(5, w, [])
    case Natural(n) => Node(8, n, [])
  }

  /** Words of eight bytes, and fewer children than four bytes count. */
  predicate DataFits(d: Data) {
    match d
    case Absent => true
    case Constructed(c, xs) =>
      c < 0x1_0000_0000_0000_0000 && |xs| < 0x1_0000_0000 && forall k :: 0 <= k < |xs| ==> DataFits(xs[k])
    case Product(xs) => |xs| < 0x1_0000_0000 && forall k :: 0 <= k < |xs| ==> DataFits(xs[k])
    case Integer(w) => w < 0x1_0000_0000_0000_0000
    case Natural(n) => n < 0x1_0000_0000_0000_0000
  }

  /** Every such value is data. */
  lemma {:induction false} DataIsData(d: Data)
    ensures IsData(ValueOf(d)) == true
    decreases d
  {
    match d
    case Constructed(_, xs) => forall k | 0 <= k < |xs| ensures IsData(ValueOf(xs[k])) == true { DataIsData(xs[k]); }
    case Product(xs) => forall k | 0 <= k < |xs| ensures IsData(ValueOf(xs[k])) == true { DataIsData(xs[k]); }
    case _ =>
  }

  lemma {:induction false} DataFitsValue(d: Data)
    requires DataFits(d)
    ensures Fits(ValueOf(d)) == true
    decreases d
  {
    match d
    case Constructed(_, xs) => forall k | 0 <= k < |xs| ensures Fits(ValueOf(xs[k])) == true { DataFitsValue(xs[k]); }
    case Product(xs) => forall k | 0 <= k < |xs| ensures Fits(ValueOf(xs[k])) == true { DataFitsValue(xs[k]); }
    case _ =>
  }

  /** The part of a value a path of child positions leads to. */
  function Below(v: Value, path: seq<nat>): Option<Value> {
    if path == [] then Some(v)
    else if v.Node? && path[0] < |v.fields| then Below(v.fields[path[0]], path[1..])
    else None
  }

  /** At the end of the path there is no node, or a constructor, a tuple, an integer or a natural. */
  predicate PlainAt(v: Value, path: seq<nat>) {
    match Below(v, path)
    case Some(Node(t, _, _)) => t == 0 || t == 1 || t == 5 || t == 8
    case _ => true
  }

  lemma {:induction false} DataBelow(v: Value, path: seq<nat>)
    requires IsData(v)
    ensures PlainAt(v, path)
    decreases path
  {
    if path != [] && v.Node? && path[0] < |v.fields| { DataBelow(v.fields[path[0]], path[1..]); }
  }

  lemma {:induction false} ForeignBelow(v: Value) returns (path: seq<nat>)
    requires !IsData(v)
    ensures !PlainAt(v, path)
    decreases v
  {
    if v.tag == 0 || v.tag == 1 || v.tag == 5 || v.tag == 8 {
      var k :| 0 <= k < |v.fields| && !IsData(v.fields[k]);
      var rest := ForeignBelow(v.fields[k]);
      path := [k] + rest;
      assert path[1..] == rest;
    } else {
      path := [];
    }
  }

  /** Data is what holds no node of another tag, at any depth. */
  lemma DataIsPlain(v: Value)
    ensures IsData(v) <==> forall path: seq<nat> :: PlainAt(v, path)
  {
    hide IsData, PlainAt;
    if IsData(v) {
      forall path: seq<nat> ensures PlainAt(v, path) { DataBelow(v, path); }
    } else {
      var path := ForeignBelow(v);
    }
  }

  // ---- the growable buffer and the cursor ----

  class Blob {
    var buf: array<Byte>
    var len: nat

    ghost predicate Valid()
      reads this
    {
      len <= buf.Length
    }

    ghost function Contents(): seq<Byte>
      requires Valid()
      reads this, buf
    {
      buf[..len]
    }

    constructor ()
      ensures Valid() && fresh(buf) && Contents() == []
    {
      buf := new Byte[0];
      len := 0;
    }

    /** Make room for `n` more bytes; the capacity starts at 256 and doubles until they fit. */
    method Reserve(n: nat)
      requires Valid() && len + n > buf.Length
      modifies `buf
      ensures Valid() && Contents() == old(Contents()) && fresh(buf) && len + n <= buf.Length
      ensures var first := if old(buf.Length) > 0 then old(buf.Length) * 2 else 256;
        first <= buf.Length && (buf.Length == first || buf.Length < 2 * (len + n))
    {
      var cap := if buf.Length > 0 then buf.Length * 2 else 256;
      ghost var first := cap;
      while cap < len + n
        invariant cap >= first > 0 && (cap == first || cap < 2 * (len + n))
        decreases len + n - cap
      {
        cap := cap * 2;
      }
      var grown := new Byte[cap];
      for i := 0 to len
        invariant buf == old(buf) && len <= buf.Length && Contents() == old(Contents())
        invariant forall k :: 0 <= k < i ==> grown[k] == buf[k]
      {
        grown[i] := buf[i];
      }
      assert grown[..len] == buf[..len];
      buf := grown;
    }

    method Put(p: seq<Byte>)
      requires Valid()
      modifies this, buf
      ensures Valid() && Contents() == old(Contents()) + p && (buf == old(buf) || fresh(buf))
    {
      ghost var before := Contents();
      if len + |p| > buf.Length {
        Reserve(|p|);
      }
      var n := len;
      for i := 0 to |p|
        invariant len == n && n + |p| <= buf.Length && (buf == old(buf) || fresh(buf))
        invariant buf[..n] == before && forall k :: 0 <= k < i ==> buf[n + k] == p[k]
      {
        buf[n + i] := p[i];
      }
      len := n + |p|;
      assert buf[..len] == before + p;
    }

    /** Write a value; false when a tag other than data is met. */
    method Write(v: Value) returns (ok: bool)
      requires Valid()
      modifies this, buf
      ensures Valid() && (buf == old(buf) || fresh(buf)) && ok == IsData(v)
      ensures ok <==> forall path: seq<nat> :: PlainAt(v, path)
      ensures ok ==> Contents() == old(Contents()) + Encode(v)
      decreases v, 1
    {
      hide Word, EncodeAll, PlainAt;
      DataIsPlain(v);
      match v {
        case Nil =>
          Put(Word(NULL_TAG, 4));
          ok := true;
        case Node(t, aux, fs) =>
          if !SerializableTag(t) {
            return false;
          }
          Put(Word(t, 4));
          Put(Word(|fs|, 4));
          Put(Word(aux, 8));
          ok := WriteAll(fs);
          if ok {
            assert Contents() == old(Contents()) + (Word(t, 4) + Word(|fs|, 4) + Word(aux, 8) + EncodeAll(fs));
          }
      }
    }

    method WriteAll(vs: seq<Value>) returns (ok: bool)
      requires Valid()
      modifies this, buf
      ensures Valid() && (buf == old(buf) || fresh(buf)) && (ok <==> forall k :: 0 <= k < |vs| ==> IsData(vs[k]))
      ensures ok ==> Contents() == old(Contents()) + EncodeAll(vs)
      decreases vs, 0
    {
      hide Encode, IsData;
      for i := 0 to |vs|
        invariant Valid() && (buf == old(buf) || fresh(buf))
        invariant forall k :: 0 <= k < i ==> IsData(vs[k])
        invariant Contents() == old(Contents()) + EncodeAll(vs[..i])
      {
        ok := Write(vs[i]);
        if !ok {
          return;
        }
        assert vs[..i + 1][..i] == vs[..i];
      }
      assert vs[..|vs|] == vs;
      ok := true;
    }
  }

  /** Read a value at the cursor; none when the bytes run out. */
  method Read(buf: seq<Byte>, pos: nat) returns (r: Result<Value>)
    requires pos <= |buf|
    ensures r == Decode(buf, pos)
    decreases |buf| - pos
  {
    if pos + 4 > |buf| {
      return Underrun;
    }
    var t := Unword(buf[pos..pos + 4]);
    if t == NULL_TAG {
      return Ok(Nil, pos + 4);
    }
    if pos + 16 > |buf| {
      return Underrun;
    }
    var nf := Unword(buf[pos + 4..pos + 8]);
    var aux := Unword(buf[pos + 8..pos + 16]);
    var fields: seq<Value> := [];
    var cursor := pos + 16;
    var i := 0;
    while i < nf
      invariant i <= nf && pos < cursor <= |buf| && DecodeMany(buf, pos + 16, i) == Ok(fields, cursor)
    {
      var child := Read(buf, cursor);
      if child.Underrun? {
        ManyFails(buf, pos + 16, i + 1, nf);
        return Underrun;
      }
      fields, cursor := fields + [child.value], child.pos;
      i := i + 1;
    }
    r := Ok(Node(t, aux, fields), cursor);
  }

  /** Once a child cannot be read, neither can any longer row of children. */
  lemma {:induction false} ManyFails(buf: seq<Byte>, pos: nat, k: nat, n: nat)
    requires pos <= |buf| && k <= n && DecodeMany(buf, pos, k).Underrun?
    ensures DecodeMany(buf, pos, n).Underrun?
    decreases n
  {
    if k < n { ManyFails(buf, pos, k, n - 1); }
  }

  /** A value sent through a buffer arrives as it was, unless it holds a node of another tag than data; so
      every first-order value arrives. */
  method Transport(v: Value) returns (ok: bool, w: Value)
    requires Fits(v)
    ensures ok == IsData(v) && (ok ==> w == v)
    ensures ok <==> forall path: seq<nat> :: PlainAt(v, path)
    ensures forall d: Data :: v == ValueOf(d) ==> ok && w == v
  {
    hide IsData, PlainAt;
    DataIsPlain(v);
    forall d: Data | v == ValueOf(d) ensures IsData(v) { DataIsData(d); }
    var b := new Blob();
    ok := b.Write(v);
    w := Nil;
    if ok {
      var bytes := b.buf[..b.len];
      RoundTrip([], v, []);
      assert bytes == [] + Encode(v) + [];
      var r := Read(bytes, 0);
      w := r.value;
    }
  }
}
