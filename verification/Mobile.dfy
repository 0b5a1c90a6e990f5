/** The mobile wire format: code pointers travel as table positions, operations as their names, and a
    blob is opened only by the binary that wrote it. */
module Mobile {
  import opened Basics
  import opened OpTable
  import opened Serialize

  /** What two processes may differ in: where their code is, and which operations they have met. */
  datatype Process = Process(codes: seq<nat>, binaryId: nat, ops: seq<OpKey>, frozen: bool)

  // ---- tables ----

  /** The first position of a code pointer. */
  function CodeIdOf(codes: seq<nat>, fn: nat): (r: Option<nat>)
    ensures r.Some? ==> r.value < |codes| && codes[r.value] == fn
    ensures r.None? <==> fn !in codes
    ensures r.Some? ==> forall i :: 0 <= i < r.value ==> codes[i] != fn
  {
    if codes == [] then None
    else if codes[0] == fn then Some(0)
    else match CodeIdOf(codes[1..], fn) case None => None case Some(i) => Some(i + 1)
  }

  // ---- writing ----

  /** A name the writer can measure: it ends at its first zero byte. */
  predicate FitsName(s: seq<Byte>) {
    |s| < 0x1_0000_0000 && 0 !in s
  }

  /** Headers fit their fields; an operation node has its argument and its continuation, and an index
      the process knows. */
  predicate FitsMobile(p: Process, v: Value) {
    match v
    case Nil => true
    case Node(t, aux, fs) =>
      t < NULL_TAG && aux < 0x1_0000_0000_0000_0000 && |fs| < 0x1_0000_0000
      && (t == OPNODE ==> |fs| == 2 && aux < |p.ops| && FitsName(p.ops[aux].effect) && FitsName(p.ops[aux].op))
      && forall k :: 0 <= k < |fs| ==> FitsMobile(p, fs[k])
  }

  predicate Travels(p: Process, t: nat, aux: nat) {
    SerializableTag(t) || t == OPNODE || (t == CLOSURE && aux in p.codes)
  }

  /** Data, closures of registered code, and operation nodes, all the way down. */
  predicate IsMobile(p: Process, v: Value) {
    match v
    case Nil => true
    case Node(t, aux, fs) =>
      Travels(p, t, aux) && forall k :: 0 <= k < |fs| ==> IsMobile(p, fs[k])
  }

  function EncodeName(s: seq<Byte>): seq<Byte> {
    Word(|s|, 4) + s
  }

  function Header(p: Process, t: nat, aux: nat, n: nat): seq<Byte> {
    if t == CLOSURE then
      Word(CLOSURE, 4) + Word(match CodeIdOf(p.codes, aux) case None => 0 case Some(i) => i, 8) + Word(n, 4)
    else if t == OPNODE then
      Word(OPNODE, 4) + EncodeName(OpAt(p.ops, aux).effect) + EncodeName(OpAt(p.ops, aux).op)
    else
      Word(t, 4) + Word(n, 4) + Word(aux, 8)
  }

  /** The bytes of a mobile value. */
  function Encode(p: Process, v: Value): seq<Byte>
    decreases v, 1
  {
    match v
    case Nil => Word(NULL_TAG, 4)
    case Node(t, aux, fs) => Header(p, t, aux, |fs|) + EncodeAll(p, fs)
  }

  function EncodeAll(p: Process, vs: seq<Value>): seq<Byte>
    decreases vs, 0
  {
    if vs == [] then [] else EncodeAll(p, vs[..|vs| - 1]) + Encode(p, vs[|vs| - 1])
  }

  /** The blob: the sender's identity, then the value; none when part of it cannot travel. */
  function Ship(p: Process, v: Value): Option<seq<Byte>> {
    if IsMobile(p, v) then Some(Word(p.binaryId, 8) + Encode(p, v)) else None
  }

  /** The operation names a value mentions, in the order they are written. */
  function Keys(p: Process, v: Value): seq<OpKey>
    decreases v, 1
  {
    match v
    case Nil => []
    case Node(t, aux, fs) => (if t == OPNODE then [OpAt(p.ops, aux)] else []) + KeysAll(p, fs)
  }

  function KeysAll(p: Process, vs: seq<Value>): seq<OpKey>
    decreases vs, 0
  {
    if vs == [] then [] else KeysAll(p, vs[..|vs| - 1]) + Keys(p, vs[|vs| - 1])
  }

  // ---- reading ----

  /** What reading leaves: a value, the cursor, the table, and whether some code was unknown; or the
      process stops, on a truncated blob or a table that cannot grow. */
  datatype Got<+T> = Got(value: T, pos: nat, ops: seq<OpKey>, reject: bool) | Stop

  /** A byte string as C reads it. */
  function UpToZero(s: seq<Byte>): (r: seq<Byte>)
    ensures r <= s && 0 !in r
    ensures 0 !in s ==> r == s
  {
    if s == [] || s[0] == 0 then [] else [s[0]] + UpToZero(s[1..])
  }

  function TakeName(buf: seq<Byte>, pos: nat): (r: Result<seq<Byte>>)
    ensures r.Ok? ==> pos < r.pos <= |buf|
  {
    var n :- Take(buf, pos, 4);
    if n.1 + n.0 <= |buf| then Ok(UpToZero(buf[n.1..n.1 + n.0]), n.1 + n.0) else Underrun
  }

  function Decode(q: Process, ops: seq<OpKey>, buf: seq<Byte>, pos: nat): (r: Got<Value>)
    requires pos <= |buf|
    ensures r.Got? ==> pos < r.pos <= |buf|
    decreases |buf| - pos, 0, 0
  {
    var t := Take(buf, pos, 4);
    if t.Underrun? then Stop
    else if t.value == NULL_TAG then Got(Nil, t.pos, ops, false)
    else if t.value == CLOSURE then
      var id := Take(buf, t.pos, 8);
      if id.Underrun? then Stop
      else
        var nf := Take(buf, id.pos, 4);
        if nf.Underrun? then Stop
        else
          var fs := DecodeMany(q, ops, buf, nf.pos, nf.value);
          if fs.Stop? then Stop
          else if id.value < |q.codes| && q.codes[id.value] != 0 then
            Got(Node(CLOSURE, q.codes[id.value], fs.value), fs.pos, fs.ops, fs.reject)
          else Got(Nil, fs.pos, fs.ops, true)
    else if t.value == OPNODE then DecodeOp(q, ops, buf, t.pos)
    else
      var nf := Take(buf, t.pos, 4);
      if nf.Underrun? then Stop
      else
        var aux := Take(buf, nf.pos, 8);
        if aux.Underrun? then Stop
        else
          var fs := DecodeMany(q, ops, buf, aux.pos, nf.value);
          if fs.Stop? then Stop else Got(Node(t.value, aux.value, fs.value), fs.pos, fs.ops, fs.reject)
  }

  /** After an operation node's tag: its two names, interned here, then its argument and continuation. */
  function DecodeOp(q: Process, ops: seq<OpKey>, buf: seq<Byte>, pos: nat): (r: Got<Value>)
    requires pos <= |buf|
    ensures r.Got? ==> pos < r.pos <= |buf|
    decreases |buf| - pos, 2, 0
  {
    var effect := TakeName(buf, pos);
    if effect.Underrun? then Stop
    else
      var op := TakeName(buf, effect.pos);
      if op.Underrun? then Stop
      else
        var key := OpKey(effect.value, op.value);
        var more := Intern(ops, q.frozen, key);
        if more.None? then Stop
        else
          var fs := DecodeMany(q, more.value, buf, op.pos, 2);
          if fs.Stop? then Stop
          else Got(Node(OPNODE, IndexOf(more.value, key).value, fs.value), fs.pos, fs.ops, fs.reject)
  }

  function DecodeMany(q: Process, ops: seq<OpKey>, buf: seq<Byte>, pos: nat, n: nat): (r: Got<seq<Value>>)
    requires pos <= |buf|
    ensures r.Got? ==> pos <= r.pos <= |buf| && |r.value| == n
    decreases |buf| - pos, 1, n
  {
    if n == 0 then Got([], pos, ops, false)
    else
      var front := DecodeMany(q, ops, buf, pos, n - 1);
      if front.Stop? then Stop
      else
        var last := Decode(q, front.ops, buf, front.pos);
        if last.Stop? then Stop
        else Got(front.value + [last.value], last.pos, last.ops, front.reject || last.reject)
  }

  datatype Delivery = Delivered(value: Value, ops: seq<OpKey>) | Rejected | Stopped

  /** Open a blob: refused before any of the value is looked at when another binary wrote it. */
  function Open(q: Process, buf: seq<Byte>): Delivery {
    var id := Take(buf, 0, 8);
    if id.Underrun? then Stopped
    else if id.value != q.binaryId then Rejected
    else
      var r := Decode(q, q.ops, buf, id.pos);
      if r.Stop? then Stopped else if r.reject then Rejected else Delivered(r.value, r.ops)
  }

  // ---- correspondence ----

  /** The same value in two processes: the same data, code at the same table position, operations of the
      same name. */
  ghost predicate Corresponds(p: Process, q: Process, ops: seq<OpKey>, v: Value, w: Value) {
    match v
    case Nil => w.Nil?
    case Node(t, aux, fs) =>
      w.Node? && w.tag == t && |w.fields| == |fs|
      && (forall k :: 0 <= k < |fs| ==> Corresponds(p, q, ops, fs[k], w.fields[k]))
      && if t == CLOSURE then SameCode(p, q, aux, w.aux)
         else if t == OPNODE then w.aux < |ops| && ops[w.aux] == OpAt(p.ops, aux)
         else w.aux == aux
  }

  /** Tables of the same binary: equally long, and every entry is some code. */
  predicate SameCodes(p: Process, q: Process) {
    |p.codes| == |q.codes| < 0x1_0000_0000_0000_0000 && 0 !in q.codes
  }

  predicate SameCode(p: Process, q: Process, fn: nat, fn': nat) {
    var id := CodeIdOf(p.codes, fn);
    id.Some? && id.value < |q.codes| && fn' == q.codes[id.value]
  }

  /** A table that has grown keeps every index's meaning. */
  lemma {:induction false} CorrespondsMore(p: Process, q: Process, ops: seq<OpKey>, more: seq<OpKey>, v: Value, w: Value)
    requires Corresponds(p, q, ops, v, w) && ops <= more
    ensures Corresponds(p, q, more, v, w) == true
    decreases v
  {
    if v.Node? {
      forall k | 0 <= k < |v.fields| ensures Corresponds(p, q, more, v.fields[k], w.fields[k]) == true {
        CorrespondsMore(p, q, ops, more, v.fields[k], w.fields[k]);
      }
    }
  }

  // ---- round trip ----

  lemma NameTaken(pre: seq<Byte>, s: seq<Byte>, post: seq<Byte>)
    requires FitsName(s)
    ensures TakeName(pre + EncodeName(s) + post, |pre|) == Ok(s, |pre| + |EncodeName(s)|)
  {
    hide Word, Unword, Power, Take;
    Widths();
    var buf := pre + EncodeName(s) + post;
    WordTaken(pre, |s|, 4, s + post);
    assert buf == pre + Word(|s|, 4) + (s + post);
    assert buf[|pre| + 4..|pre| + 4 + |s|] == s;
  }

  /** What reading a written value gives: a corresponding value, its bytes consumed, the table grown by
      the names it mentions; or, exactly when those names cannot be interned, the process stops. */
  ghost predicate ReadsAs(p: Process, q: Process, ops: seq<OpKey>, v: Value, end: nat, r: Got<Value>) {
    match InternAll(ops, q.frozen, Keys(p, v))
    case None => r.Stop?
    case Some(more) => r.Got? && r.pos == end && r.ops == more && !r.reject && Corresponds(p, q, more, v, r.value) == true
  }

  ghost predicate AllReadAs(p: Process, q: Process, ops: seq<OpKey>, vs: seq<Value>, end: nat, r: Got<seq<Value>>) {
    match InternAll(ops, q.frozen, KeysAll(p, vs))
    case None => r.Stop?
    case Some(more) =>
      r.Got? && r.pos == end && r.ops == more && !r.reject && |r.value| == |vs|
      && forall k :: 0 <= k < |vs| ==> Corresponds(p, q, more, vs[k], r.value[k]) == true
  }

  lemma {:induction false} RoundTrip(p: Process, q: Process, ops: seq<OpKey>, pre: seq<Byte>, v: Value, post: seq<Byte>)
    requires FitsMobile(p, v) && IsMobile(p, v) && SameCodes(p, q)
    ensures ReadsAs(p, q, ops, v, |pre| + |Encode(p, v)|, Decode(q, ops, pre + Encode(p, v) + post, |pre|))
    decreases v, 1
  {
    hide Word, Unword, Power, Take, DecodeMany, DecodeOp, FitsMobile, IsMobile, Corresponds, Header, InternAll, Keys;
    match v
    case Nil => NilTrip(p, q, ops, pre, post);
    case Node(t, aux, fs) =>
      if t == CLOSURE {
        ClosureTrip(p, q, ops, pre, v, post);
      } else if t == OPNODE {
        OpTrip(p, q, ops, pre, v, post);
      } else {
        DataTrip(p, q, ops, pre, v, post);
      }
  }

  lemma NilTrip(p: Process, q: Process, ops: seq<OpKey>, pre: seq<Byte>, post: seq<Byte>)
    ensures ReadsAs(p, q, ops, Nil, |pre| + |Encode(p, Nil)|, Decode(q, ops, pre + Encode(p, Nil) + post, |pre|))
  {
    hide Word, Unword, Power, Take;
    Widths();
    WordTaken(pre, NULL_TAG, 4, post);
  }

  lemma {:induction false} DataTrip(p: Process, q: Process, ops: seq<OpKey>, pre: seq<Byte>, v: Value, post: seq<Byte>)
    requires v.Node? && v.tag != CLOSURE && v.tag != OPNODE
    requires FitsMobile(p, v) && IsMobile(p, v) && SameCodes(p, q)
    ensures ReadsAs(p, q, ops, v, |pre| + |Encode(p, v)|, Decode(q, ops, pre + Encode(p, v) + post, |pre|))
    decreases v, 0
  {
    hide Word, Unword, Power, Take, DecodeMany, DecodeOp, EncodeAll, KeysAll, InternAll;
    Widths();
    var buf := pre + Encode(p, v) + post;
    var fs := v.fields;
    var wt, wn, wa, wf := Word(v.tag, 4), Word(|fs|, 4), Word(v.aux, 8), EncodeAll(p, fs);
    assert buf == pre + wt + (wn + wa + wf + post);
    WordTaken(pre, v.tag, 4, wn + wa + wf + post);
    assert buf == pre + wt + wn + (wa + wf + post);
    WordTaken(pre + wt, |fs|, 4, wa + wf + post);
    assert buf == pre + wt + wn + wa + (wf + post);
    WordTaken(pre + wt + wn, v.aux, 8, wf + post);
    AllTrip(p, q, ops, pre + wt + wn + wa, fs, post);
    assert buf == pre + wt + wn + wa + wf + post;
    assert Keys(p, v) == KeysAll(p, fs);
  }

  lemma {:induction false} ClosureTrip(p: Process, q: Process, ops: seq<OpKey>, pre: seq<Byte>, v: Value, post: seq<Byte>)
    requires v.Node? && v.tag == CLOSURE
    requires FitsMobile(p, v) && IsMobile(p, v) && SameCodes(p, q)
    ensures ReadsAs(p, q, ops, v, |pre| + |Encode(p, v)|, Decode(q, ops, pre + Encode(p, v) + post, |pre|))
    decreases v, 0
  {
    hide Word, Unword, Power, Take, DecodeMany, DecodeOp, EncodeAll, KeysAll, InternAll;
    Widths();
    var buf := pre + Encode(p, v) + post;
    var fs, id := v.fields, CodeIdOf(p.codes, v.aux).value;
    var wt, wi, wn, wf := Word(CLOSURE, 4), Word(id, 8), Word(|fs|, 4), EncodeAll(p, fs);
    assert buf == pre + wt + (wi + wn + wf + post);
    WordTaken(pre, CLOSURE, 4, wi + wn + wf + post);
    assert buf == pre + wt + wi + (wn + wf + post);
    WordTaken(pre + wt, id, 8, wn + wf + post);
    assert buf == pre + wt + wi + wn + (wf + post);
    WordTaken(pre + wt + wi, |fs|, 4, wf + post);
    AllTrip(p, q, ops, pre + wt + wi + wn, fs, post);
    assert buf == pre + wt + wi + wn + wf + post;
    assert Keys(p, v) == KeysAll(p, fs);
  }

  lemma {:induction false} OpTrip(p: Process, q: Process, ops: seq<OpKey>, pre: seq<Byte>, v: Value, post: seq<Byte>)
    requires v.Node? && v.tag == OPNODE
    requires FitsMobile(p, v) && IsMobile(p, v) && SameCodes(p, q)
    ensures ReadsAs(p, q, ops, v, |pre| + |Encode(p, v)|, Decode(q, ops, pre + Encode(p, v) + post, |pre|))
    decreases v, 0
  {
    hide Word, Unword, Power, Take, DecodeMany, EncodeAll, KeysAll, InternAll, TakeName, EncodeName, Intern;
    Widths();
    var buf := pre + Encode(p, v) + post;
    var fs, key := v.fields, p.ops[v.aux];
    var wt, we, wo, wf := Word(OPNODE, 4), EncodeName(key.effect), EncodeName(key.op), EncodeAll(p, fs);
    assert buf == pre + wt + (we + wo + wf + post);
    WordTaken(pre, OPNODE, 4, we + wo + wf + post);
    assert buf == pre + wt + we + (wo + wf + post);
    NameTaken(pre + wt, key.effect, wo + wf + post);
    assert buf == pre + wt + we + wo + (wf + post);
    NameTaken(pre + wt + we, key.op, wf + post);
    OneThen(ops, q.frozen, key, KeysAll(p, fs));
    var more := Intern(ops, q.frozen, key);
    if more.Some? {
      AllTrip(p, q, more.value, pre + wt + we + wo, fs, post);
      assert buf == pre + wt + we + wo + wf + post;
      OpIndexKept(more.value, q.frozen, key, KeysAll(p, fs));
    }
  }

  lemma {:induction false} AllTrip(p: Process, q: Process, ops: seq<OpKey>, pre: seq<Byte>, vs: seq<Value>, post: seq<Byte>)
    requires SameCodes(p, q)
    requires forall k :: 0 <= k < |vs| ==> FitsMobile(p, vs[k]) == true && IsMobile(p, vs[k]) == true
    ensures AllReadAs(p, q, ops, vs, |pre| + |EncodeAll(p, vs)|, DecodeMany(q, ops, pre + EncodeAll(p, vs) + post, |pre|, |vs|))
    decreases vs, 0
  {
    hide FitsMobile, IsMobile, Encode, Decode, Keys, InternAll, Corresponds;
    if vs == [] {
      InternNothing(ops, q.frozen);
    } else {
      var front, last := vs[..|vs| - 1], vs[|vs| - 1];
      var buf := pre + EncodeAll(p, vs) + post;
      AllTrip(p, q, ops, pre, front, Encode(p, last) + post);
      assert buf == pre + EncodeAll(p, front) + (Encode(p, last) + post);
      InternAppend(ops, q.frozen, KeysAll(p, front), Keys(p, last));
      var mid := InternAll(ops, q.frozen, KeysAll(p, front));
      if mid.Some? {
        RoundTrip(p, q, mid.value, pre + EncodeAll(p, front), last, post);
        assert buf == pre + EncodeAll(p, front) + Encode(p, last) + post;
        FrontKept(p, q, mid.value, Keys(p, last), front, DecodeMany(q, ops, buf, |pre|, |front|).value);
      }
    }
  }

  lemma FrontKept(p: Process, q: Process, ops: seq<OpKey>, keys: seq<OpKey>, vs: seq<Value>, ws: seq<Value>)
    requires |ws| == |vs| && forall k :: 0 <= k < |vs| ==> Corresponds(p, q, ops, vs[k], ws[k]) == true
    ensures var more := InternAll(ops, q.frozen, keys);
      more.Some? ==> forall k :: 0 <= k < |vs| ==> Corresponds(p, q, more.value, vs[k], ws[k]) == true
  {
    hide Corresponds;
    var more := InternAll(ops, q.frozen, keys);
    if more.Some? {
      forall k | 0 <= k < |vs| ensures Corresponds(p, q, more.value, vs[k], ws[k]) == true {
        CorrespondsMore(p, q, ops, more.value, vs[k], ws[k]);
      }
    }
  }

  // ---- main results ----

  /** A mobile value sent to a process of the same binary arrives as the corresponding value, and the
      receiver's table only grows; unless the receiver cannot intern its names, and then it stops. */
  lemma MobileRoundTrip(p: Process, q: Process, v: Value)
    requires FitsMobile(p, v) && IsMobile(p, v)
    requires p.binaryId == q.binaryId < 0x1_0000_0000_0000_0000
    requires SameCodes(p, q)
    ensures var d := Open(q, Ship(p, v).value);
      match InternAll(q.ops, q.frozen, Keys(p, v))
      case None => d.Stopped?
      case Some(more) => d.Delivered? && d.ops == more && q.ops <= d.ops && Corresponds(p, q, d.ops, v, d.value)
  {
    hide FitsMobile, IsMobile, Encode, Decode, Keys, InternAll, Corresponds, Word, Unword, Power, Take;
    Widths();
    var id := Word(p.binaryId, 8);
    WordTaken([], p.binaryId, 8, Encode(p, v));
    assert [] + id + Encode(p, v) == id + Encode(p, v);
    RoundTrip(p, q, q.ops, id, v, []);
    assert id + Encode(p, v) + [] == id + Encode(p, v);
  }

  /** A receiver with room for the names, or that knows them all, gets the value. */
  lemma MobileArrives(p: Process, q: Process, v: Value)
    requires FitsMobile(p, v) && IsMobile(p, v)
    requires p.binaryId == q.binaryId < 0x1_0000_0000_0000_0000
    requires SameCodes(p, q)
    requires (!q.frozen && |q.ops| + |Keys(p, v)| <= 256) || forall k :: k in Keys(p, v) ==> k in q.ops
    ensures var d := Open(q, Ship(p, v).value);
      d.Delivered? && q.ops <= d.ops && Corresponds(p, q, d.ops, v, d.value)
  {
    hide FitsMobile, IsMobile, Keys, InternAll, Corresponds, Open, Ship;
    InternSucceeds(q.ops, q.frozen, Keys(p, v));
    MobileRoundTrip(p, q, v);
  }

  /** A blob of another binary is refused whatever it contains. */
  lemma ForeignRefused(p: Process, q: Process, v: Value)
    requires IsMobile(p, v) && p.binaryId != q.binaryId && p.binaryId < 0x1_0000_0000_0000_0000
    ensures Open(q, Ship(p, v).value).Rejected?
  {
    hide IsMobile, Encode, Decode, Word, Unword, Power, Take;
    Widths();
    WordTaken([], p.binaryId, 8, Encode(p, v));
    assert [] + Word(p.binaryId, 8) + Encode(p, v) == Word(p.binaryId, 8) + Encode(p, v);
  }

  /** Nothing is sent when some tag cannot travel, or some closure's code is not in the table. */
  lemma {:induction false} UnregisteredRefused(p: Process, v: Value, path: seq<nat>)
    requires Below(v, path).Some? && Below(v, path).value.Node?
    requires var n := Below(v, path).value;
      (n.tag == CLOSURE && n.aux !in p.codes) || (!SerializableTag(n.tag) && n.tag != CLOSURE && n.tag != OPNODE)
    ensures Ship(p, v).None?
    decreases path
  {
    if path != [] { UnregisteredRefused(p, v.fields[path[0]], path[1..]); }
  }

  /** The bytes of a closure: its tag, the eight bytes of its code's table position, the number of its
      captures, and the captures. */
  lemma ClosureLayout(p: Process, aux: nat, fs: seq<Value>) returns (id: seq<Byte>, count: seq<Byte>)
    requires aux in p.codes && |p.codes| < 0x1_0000_0000_0000_0000 && |fs| < 0x1_0000_0000
    ensures Encode(p, Node(2, aux, fs)) == [2, 0, 0, 0] + id + count + EncodeAll(p, fs) && |id| == 8 && |count| == 4
    ensures |fs| == Little(count[0], count[1], count[2], count[3])
    ensures CodeIdOf(p.codes, aux)
         == Some(Little(id[0], id[1], id[2], id[3]) + 0x1_0000_0000 * Little(id[4], id[5], id[6], id[7]))
  {
    hide EncodeAll, Word;
    id, count := Word(CodeIdOf(p.codes, aux).value, 8), Word(|fs|, 4);
    SmallWord(2);
    LongWord(CodeIdOf(p.codes, aux).value);
    ShortWord(|fs|);
  }

  /** The bytes of an operation node: its tag, its effect's name and its own, each after its length, and
      then its argument and its continuation. */
  lemma OpLayout(p: Process, aux: nat, fs: seq<Value>) returns (m: seq<Byte>, n: seq<Byte>)
    requires aux < |p.ops| && FitsName(p.ops[aux].effect) && FitsName(p.ops[aux].op)
    ensures Encode(p, Node(6, aux, fs)) == [6, 0, 0, 0] + m + p.ops[aux].effect + n + p.ops[aux].op + EncodeAll(p, fs)
    ensures |m| == |n| == 4
    ensures |p.ops[aux].effect| == Little(m[0], m[1], m[2], m[3]) && |p.ops[aux].op| == Little(n[0], n[1], n[2], n[3])
  {
    hide EncodeAll, Word;
    m, n := Word(|p.ops[aux].effect|, 4), Word(|p.ops[aux].op|, 4);
    SmallWord(6);
    ShortWord(|p.ops[aux].effect|);
    ShortWord(|p.ops[aux].op|);
  }

  lemma SmallWord(n: nat)
    requires n < 256
    ensures Word(n, 4) == [n, 0, 0, 0]
  {
    assert Word(0, 1) == [0];
    assert Word(0, 2) == [0, 0];
    assert Word(0, 3) == [0, 0, 0];
  }

  // ---- which values travel ----

  /** At the end of the path there is no node, or data, or an operation node, or a closure of code in the
      sender's table. */
  predicate MobileAt(p: Process, v: Value, path: seq<nat>) {
    match Below(v, path)
    case Some(Node(t, aux, _)) => t == 0 || t == 1 || t == 5 || t == 8 || t == 6 || (t == 2 && aux in p.codes)
    case _ => true
  }

  lemma {:induction false} MobileBelow(p: Process, v: Value, path: seq<nat>)
    requires IsMobile(p, v)
    ensures MobileAt(p, v, path)
    decreases path
  {
    if path != [] && v.Node? && path[0] < |v.fields| { MobileBelow(p, v.fields[path[0]], path[1..]); }
  }

  lemma {:induction false} StrangerBelow(p: Process, v: Value) returns (path: seq<nat>)
    requires !IsMobile(p, v)
    ensures !MobileAt(p, v, path)
    decreases v
  {
    if MobileAt(p, v, []) {
      var k :| 0 <= k < |v.fields| && !IsMobile(p, v.fields[k]);
      var rest := StrangerBelow(p, v.fields[k]);
      path := [k] + rest;
      assert path[1..] == rest;
    } else {
      path := [];
    }
  }

  /** A value travels exactly when every node of it does, at any depth. */
  lemma MobileEverywhere(p: Process, v: Value)
    ensures IsMobile(p, v) <==> forall path: seq<nat> :: MobileAt(p, v, path)
  {
    hide IsMobile, MobileAt;
    if IsMobile(p, v) {
      forall path: seq<nat> ensures MobileAt(p, v, path) { MobileBelow(p, v, path); }
    } else {
      var path := StrangerBelow(p, v);
    }
  }

  lemma {:induction false} DataTravels(p: Process, d: Data)
    requires DataFits(d)
    ensures IsMobile(p, ValueOf(d)) == true && FitsMobile(p, ValueOf(d)) == true && Keys(p, ValueOf(d)) == []
    decreases d
  {
    hide KeysAll;
    match d
    case Constructed(_, xs) => AllDataTravels(p, xs, ValueOf(d).fields);
    case Product(xs) => AllDataTravels(p, xs, ValueOf(d).fields);
    case _ => NoKeys(p);
  }

  lemma {:induction false} AllDataTravels(p: Process, xs: seq<Data>, vs: seq<Value>)
    requires |vs| == |xs| && forall k :: 0 <= k < |xs| ==> DataFits(xs[k]) == true && vs[k] == ValueOf(xs[k])
    ensures forall k :: 0 <= k < |xs| ==> IsMobile(p, vs[k]) == true && FitsMobile(p, vs[k]) == true
    ensures KeysAll(p, vs) == []
    decreases xs
  {
    hide IsMobile, FitsMobile, Keys, ValueOf, DataFits;
    if xs != [] {
      var m := |xs| - 1;
      AllDataTravels(p, xs[..m], vs[..m]);
      assert xs[m] in xs;
      DataTravels(p, xs[m]);
      forall k | 0 <= k < m ensures IsMobile(p, vs[k]) == true && FitsMobile(p, vs[k]) == true { assert vs[k] == vs[..m][k]; }
    }
  }

  lemma NoKeys(p: Process)
    ensures KeysAll(p, []) == []
  {}

  lemma {:induction false} DataIsItself(p: Process, q: Process, ops: seq<OpKey>, d: Data, w: Value)
    requires Corresponds(p, q, ops, ValueOf(d), w)
    ensures w == ValueOf(d)
    decreases d
  {
    match d
    case Constructed(_, xs) =>
      forall k | 0 <= k < |xs| ensures w.fields[k] == ValueOf(xs[k]) { DataIsItself(p, q, ops, xs[k], w.fields[k]); }
    case Product(xs) =>
      forall k | 0 <= k < |xs| ensures w.fields[k] == ValueOf(xs[k]) { DataIsItself(p, q, ops, xs[k], w.fields[k]); }
    case _ =>
  }

  /** Every first-order value is sent, and a process of the same binary receives it as it was, whatever its
      operation table, which it leaves alone. */
  lemma DataDelivered(p: Process, q: Process, d: Data)
    requires DataFits(d) && p.binaryId == q.binaryId < 0x1_0000_0000_0000_0000 && SameCodes(p, q)
    ensures Ship(p, ValueOf(d)).Some? && Open(q, Ship(p, ValueOf(d)).value) == Delivered(ValueOf(d), q.ops)
  {
    hide IsMobile, FitsMobile, Keys, Corresponds, Open, Encode;
    DataTravels(p, d);
    MobileRoundTrip(p, q, ValueOf(d));
    InternNothing(q.ops, q.frozen);
    DataIsItself(p, q, q.ops, d, Open(q, Ship(p, ValueOf(d)).value).value);
  }

  // ---- the writer and the reader ----

  /** Write the part of a node before its children; false when the node itself cannot travel. */
  method WriteHeader(b: Blob, p: Process, t: nat, aux: nat, n: nat) returns (ok: bool)
    requires b.Valid()
    modifies b, b.buf
    ensures b.Valid() && (b.buf == old(b.buf) || fresh(b.buf)) && ok == Travels(p, t, aux)
    ensures ok ==> b.Contents() == old(b.Contents()) + Header(p, t, aux, n)
  {
    hide Word, EncodeName;
    if t == CLOSURE {
      var id := CodeIdOf(p.codes, aux);
      if id.None? {
        return false;
      }
      b.Put(Word(CLOSURE, 4));
      b.Put(Word(id.value, 8));
      b.Put(Word(n, 4));
    } else if t == OPNODE {
      b.Put(Word(OPNODE, 4));
      b.Put(EncodeName(OpAt(p.ops, aux).effect));
      b.Put(EncodeName(OpAt(p.ops, aux).op));
    } else {
      if !SerializableTag(t) {
        return false;
      }
      b.Put(Word(t, 4));
      b.Put(Word(n, 4));
      b.Put(Word(aux, 8));
    }
    ok := true;
  }

  /** Write a value after what the buffer holds; false when part of it cannot travel. An operation node
      has two children, its argument and its continuation, by construction. */
  method Write(b: Blob, p: Process, v: Value) returns (ok: bool)
    requires b.Valid()
    modifies b, b.buf
    ensures b.Valid() && (b.buf == old(b.buf) || fresh(b.buf)) && ok == IsMobile(p, v)
    ensures ok <==> forall path: seq<nat> :: MobileAt(p, v, path)
    ensures ok ==> b.Contents() == old(b.Contents()) + Encode(p, v)
    decreases v, 1
  {
    hide Word, EncodeAll, EncodeName, Header, Travels, MobileAt;
    MobileEverywhere(p, v);
    match v {
      case Nil =>
        b.Put(Word(NULL_TAG, 4));
        ok := true;
      case Node(t, aux, fs) =>
        ok := WriteHeader(b, p, t, aux, |fs|);
        if ok {
          ok := WriteAll(b, p, fs);
        }
    }
  }

  method WriteAll(b: Blob, p: Process, vs: seq<Value>) returns (ok: bool)
    requires b.Valid()
    modifies b, b.buf
    ensures b.Valid() && (b.buf == old(b.buf) || fresh(b.buf))
    ensures ok <==> forall k :: 0 <= k < |vs| ==> IsMobile(p, vs[k])
    ensures ok ==> b.Contents() == old(b.Contents()) + EncodeAll(p, vs)
    decreases vs, 0
  {
    hide Encode, IsMobile;
    for i := 0 to |vs|
      invariant b.Valid() && (b.buf == old(b.buf) || fresh(b.buf))
      invariant forall k :: 0 <= k < i ==> IsMobile(p, vs[k])
      invariant b.Contents() == old(b.Contents()) + EncodeAll(p, vs[..i])
    {
      ok := Write(b, p, vs[i]);
      if !ok {
        return;
      }
      assert vs[..i + 1][..i] == vs[..i];
    }
    assert vs[..|vs|] == vs;
    ok := true;
  }

  /** Read a value at the cursor, adding the operations it names to this process's table. */
  method Read(q: Process, table: Table, buf: seq<Byte>, pos: nat) returns (r: Got<Value>)
    requires table.Valid() && pos <= |buf| && table.frozen == q.frozen
    modifies table`used, table.slots
    ensures table.Valid() && r == Decode(q, old(table.Names()), buf, pos)
    ensures r.Got? ==> table.Names() == r.ops
    decreases |buf| - pos, 0
  {
    if pos + 4 > |buf| {
      return Stop;
    }
    var t := Unword(buf[pos..pos + 4]);
    if t == NULL_TAG {
      return Got(Nil, pos + 4, table.Names(), false);
    }
    if t == OPNODE {
      r := ReadOp(q, table, buf, pos + 4);
      return;
    }
    if pos + 16 > |buf| {
      return Stop;
    }
    if t == CLOSURE {
      var id, nf := Unword(buf[pos + 4..pos + 12]), Unword(buf[pos + 12..pos + 16]);
      var fs := ReadMany(q, table, buf, pos + 16, nf);
      if fs.Stop? {
        return Stop;
      }
      if id < |q.codes| && q.codes[id] != 0 {
        r := Got(Node(CLOSURE, q.codes[id], fs.value), fs.pos, fs.ops, fs.reject);
      } else {
        r := Got(Nil, fs.pos, fs.ops, true);
      }
    } else {
      var nf, aux := Unword(buf[pos + 4..pos + 8]), Unword(buf[pos + 8..pos + 16]);
      var fs := ReadMany(q, table, buf, pos + 16, nf);
      if fs.Stop? {
        return Stop;
      }
      r := Got(Node(t, aux, fs.value), fs.pos, fs.ops, fs.reject);
    }
  }

  method ReadOp(q: Process, table: Table, buf: seq<Byte>, pos: nat) returns (r: Got<Value>)
    requires table.Valid() && pos <= |buf| && table.frozen == q.frozen
    modifies table`used, table.slots
    ensures table.Valid() && r == DecodeOp(q, old(table.Names()), buf, pos)
    ensures r.Got? ==> table.Names() == r.ops
    decreases |buf| - pos, 2
  {
    var effect := TakeName(buf, pos);
    if effect.Underrun? {
      return Stop;
    }
    var op := TakeName(buf, effect.pos);
    if op.Underrun? {
      return Stop;
    }
    var index := table.Find(OpKey(effect.value, op.value));
    if index.None? {
      return Stop;
    }
    var fs := ReadMany(q, table, buf, op.pos, 2);
    if fs.Stop? {
      return Stop;
    }
    r := Got(Node(OPNODE, index.value, fs.value), fs.pos, fs.ops, fs.reject);
  }

  method ReadMany(q: Process, table: Table, buf: seq<Byte>, pos: nat, n: nat) returns (r: Got<seq<Value>>)
    requires table.Valid() && pos <= |buf| && table.frozen == q.frozen
    modifies table`used, table.slots
    ensures table.Valid() && r == DecodeMany(q, old(table.Names()), buf, pos, n)
    ensures r.Got? ==> table.Names() == r.ops
    decreases |buf| - pos, 1
  {
    hide Decode;
    var fields: seq<Value>, cursor, reject := [], pos, false;
    for i := 0 to n
      invariant table.Valid() && pos <= cursor <= |buf|
      invariant DecodeMany(q, old(table.Names()), buf, pos, i) == Got(fields, cursor, table.Names(), reject)
    {
      var child := Read(q, table, buf, cursor);
      if child.Stop? {
        ManyStop(q, old(table.Names()), buf, pos, i + 1, n);
        return Stop;
      }
      fields, cursor, reject := fields + [child.value], child.pos, reject || child.reject;
    }
    r := Got(fields, cursor, table.Names(), reject);
  }

  lemma {:induction false} ManyStop(q: Process, ops: seq<OpKey>, buf: seq<Byte>, pos: nat, k: nat, n: nat)
    requires pos <= |buf| && k <= n && DecodeMany(q, ops, buf, pos, k).Stop?
    ensures DecodeMany(q, ops, buf, pos, n).Stop?
    decreases n
  {
    if k < n { ManyStop(q, ops, buf, pos, k, n - 1); }
  }

  /** The sender's whole blob. */
  method Send(p: Process, v: Value) returns (r: Option<seq<Byte>>)
    ensures r == Ship(p, v)
    ensures r.Some? <==> forall path: seq<nat> :: MobileAt(p, v, path)
  {
    hide Word, Encode, IsMobile, MobileAt;
    MobileEverywhere(p, v);
    var b := new Blob();
    b.Put(Word(p.binaryId, 8));
    var ok := Write(b, p, v);
    if !ok {
      return None;
    }
    assert [] + Word(p.binaryId, 8) == Word(p.binaryId, 8);
    r := Some(b.buf[..b.len]);
  }

  /** Open a blob in a process whose operation table is `table`. */
  method Receive(q: Process, table: Table, buf: seq<Byte>) returns (d: Delivery)
    requires table.Valid() && table.frozen == q.frozen && table.Names() == q.ops
    modifies table`used, table.slots
    ensures table.Valid() && d == Open(q, buf)
    ensures d.Delivered? ==> table.Names() == d.ops
  {
    hide Decode;
    var id := Take(buf, 0, 8);
    if id.Underrun? {
      return Stopped;
    }
    if id.value != q.binaryId {
      return Rejected;
    }
    var r := Read(q, table, buf, id.pos);
    if r.Stop? {
      return Stopped;
    }
    d := if r.reject then Rejected else Delivered(r.value, r.ops);
  }
}
