/** The collector's memory: objects at addresses, tiled contiguously from a region's base to its bump
    pointer, and the state of a Cheney copy. */
module GcMemory {
  import opened Basics

  /** A word the collector may find in a root or a field. */
  datatype Ref = Null | Imm(word: nat) | Ptr(a: nat)

  datatype Obj = Obj(tag: nat, remembered: bool, aux: int, fields: seq<Ref>)

  /** The tag of an object that has been moved; its `aux` is then the new address. */
  const FWD: nat := 7

  const HEADER: nat := 16
  const WORD: nat := 8

  type Mem = map<nat, Obj>

  function Size(o: Obj): nat {
    HEADER + WORD * |o.fields|
  }

  function SizeAt(mem: Mem, a: nat): nat {
    if a in mem then Size(mem[a]) else 0
  }

  function Bytes(mem: Mem, s: seq<nat>): nat {
    if s == [] then 0 else Bytes(mem, s[..|s| - 1]) + SizeAt(mem, s[|s| - 1])
  }

  /** The objects `ts` fill `[base, end)` without gaps, in order. */
  ghost predicate Tiled(mem: Mem, ts: seq<nat>, base: nat, end: nat) {
    if ts == [] then base == end
    else
      var last := ts[|ts| - 1];
      last in mem && last + Size(mem[last]) == end && Tiled(mem, ts[..|ts| - 1], base, last)
  }

  lemma {:induction false} TiledFacts(mem: Mem, ts: seq<nat>, base: nat, end: nat)
    requires Tiled(mem, ts, base, end)
    ensures Bytes(mem, ts) == end - base && base <= end && Distinct(ts)
    ensures forall k :: 0 <= k < |ts| ==> ts[k] in mem && base <= ts[k] && ts[k] + Size(mem[ts[k]]) <= end
  {
    if ts != [] {
      var m := |ts| - 1;
      TiledFacts(mem, ts[..m], base, ts[m]);
      assert forall k :: 0 <= k < m ==> ts[..m][k] == ts[k];
    }
  }

  /** Memory that agrees on the tiles is tiled alike. */
  lemma {:induction false} TiledSame(mem: Mem, mem': Mem, ts: seq<nat>, base: nat, end: nat)
    requires Tiled(mem, ts, base, end)
    requires forall k :: 0 <= k < |ts| ==> ts[k] in mem' && SizeAt(mem', ts[k]) == SizeAt(mem, ts[k])
    ensures Tiled(mem', ts, base, end)
  {
    TiledFacts(mem, ts, base, end);
    if ts != [] { TiledSame(mem, mem', ts[..|ts| - 1], base, ts[|ts| - 1]); }
  }

  lemma {:induction false} TiledAppend(mem: Mem, ts: seq<nat>, us: seq<nat>, base: nat, mid: nat, end: nat)
    requires Tiled(mem, ts, base, mid) && Tiled(mem, us, mid, end)
    ensures Tiled(mem, ts + us, base, end)
  {
    if us == [] {
      assert ts + us == ts;
    } else {
      var m := |us| - 1;
      TiledAppend(mem, ts, us[..m], base, mid, us[m]);
      assert (ts + us)[..|ts + us| - 1] == ts + us[..m];
    }
  }

  lemma {:induction false} BytesSame(mem: Mem, mem': Mem, s: seq<nat>)
    requires forall k :: 0 <= k < |s| ==> SizeAt(mem, s[k]) == SizeAt(mem', s[k])
    ensures Bytes(mem, s) == Bytes(mem', s)
  {
    if s != [] { BytesSame(mem, mem', s[..|s| - 1]); }
  }

  lemma {:induction false} BytesAppend(mem: Mem, s: seq<nat>, t: seq<nat>)
    ensures Bytes(mem, s + t) == Bytes(mem, s) + Bytes(mem, t)
  {
    if t == [] {
      assert s + t == s;
    } else {
      assert (s + t)[..|s + t| - 1] == s + t[..|t| - 1];
      BytesAppend(mem, s, t[..|t| - 1]);
    }
  }

  lemma {:induction false} BytesPrefix(mem: Mem, s: seq<nat>, i: nat, j: nat)
    requires i <= j <= |s| && forall k :: 0 <= k < |s| ==> s[k] in mem
    ensures Bytes(mem, s[..i]) <= Bytes(mem, s[..j])
    ensures i < j ==> Bytes(mem, s[..i]) + SizeAt(mem, s[i]) <= Bytes(mem, s[..j])
    decreases j
  {
    if i < j {
      BytesPrefix(mem, s, i, j - 1);
      assert s[..j][..j - 1] == s[..j - 1];
    }
  }

  /** Removing one occurrence takes its bytes. */
  lemma BytesWithout(mem: Mem, s: seq<nat>, k: nat)
    requires k < |s|
    ensures Bytes(mem, s) == Bytes(mem, s[..k] + s[k + 1..]) + SizeAt(mem, s[k])
  {
    assert s == s[..k] + ([s[k]] + s[k + 1..]);
    BytesAppend(mem, s[..k], [s[k]] + s[k + 1..]);
    BytesAppend(mem, [s[k]], s[k + 1..]);
    BytesAppend(mem, s[..k], s[k + 1..]);
    assert [s[k]][..0] == [];
  }

  /** Distinct objects drawn from the tiles need no more room than the tiles. */
  lemma {:induction false} SelectionFits(mem: Mem, chosen: seq<nat>, tiles: seq<nat>)
    requires Distinct(chosen) && forall k :: 0 <= k < |chosen| ==> chosen[k] in tiles
    ensures Bytes(mem, chosen) <= Bytes(mem, tiles)
    decreases |chosen|
  {
    if chosen != [] {
      var m := |chosen| - 1;
      var k :| 0 <= k < |tiles| && tiles[k] == chosen[m];
      var rest := tiles[..k] + tiles[k + 1..];
      forall j | 0 <= j < m ensures chosen[j] in rest {
        var i :| 0 <= i < |tiles| && tiles[i] == chosen[j];
        assert i != k;
        if i < k { assert rest[i] == tiles[i]; } else { assert rest[i - 1] == tiles[i]; }
      }
      SelectionFits(mem, chosen[..m], rest);
      BytesWithout(mem, tiles, k);
    }
  }

  /** ... and exactly as much when every tile is chosen. */
  lemma {:induction false} SelectionFills(mem: Mem, chosen: seq<nat>, tiles: seq<nat>)
    requires Distinct(tiles) && forall k :: 0 <= k < |tiles| ==> tiles[k] in chosen
    requires Distinct(chosen) && forall k :: 0 <= k < |chosen| ==> chosen[k] in tiles
    ensures Bytes(mem, chosen) == Bytes(mem, tiles)
  {
    SelectionFits(mem, chosen, tiles);
    SelectionFits(mem, tiles, chosen);
  }
}
