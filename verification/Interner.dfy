/** The string interner: one reference counted block for each distinct byte string in use, shared by
    every handle to it. */
module Interner {
  import opened Options
  import opened Text

  const UTF8_MASK: nat := 0x8000_0000
  const MAX_SIZE: nat := 0x1_0000_0000

  // ---------------------------------------------------------------- blocks and handles

  /** Address of a block. Memory is a map, so reading a freed block would be an error. */
  type Ptr = nat

  /** `word` packs the UTF-8 flag in its top bit with the reference count below. */
  datatype Block = Block(bytes: Bytes, word: nat) {
    function Refcnt(): nat {
      word % UTF8_MASK
    }

    predicate IsUtf8() {
      word / UTF8_MASK % 2 == 1
    }

    /** The word fits 32 bits, the length too, and the flag is right when it is set. */
    ghost predicate Fit() {
      word < 2 * UTF8_MASK && |bytes| < MAX_SIZE && (IsUtf8() ==> Utf8(bytes))
    }
  }

  /** A string (`str`) or byte-string handle. */
  datatype Handle = Handle(ptr: Ptr, str: bool)

  datatype Result<+T> = Done(v: T) | NotUtf8 | Panic

  ghost function Held(hs: multiset<Handle>, p: Ptr): nat {
    hs[Handle(p, true)] + hs[Handle(p, false)]
  }

  lemma HeldMore(hs: multiset<Handle>, h: Handle, p: Ptr)
    ensures Held(hs + multiset{h}, p) == Held(hs, p) + if p == h.ptr then 1 else 0
    ensures h in hs ==> Held(hs - multiset{h}, p) == Held(hs, p) - if p == h.ptr then 1 else 0
  {}

  /** Blocks in both memories have the same contents. */
  ghost predicate Same(m: map<Ptr, Block>, m': map<Ptr, Block>) {
    forall p :: p in m && p in m' ==> m'[p].bytes == m[p].bytes
  }

  lemma {:induction false} Above(ps: set<Ptr>) returns (top: Ptr)
    ensures forall p :: p in ps ==> p < top
  {
    if ps == {} {
      top := 0;
    } else {
      var p :| p in ps;
      var rest := Above(ps - {p});
      top := if rest <= p then p + 1 else rest;
      forall q | q in ps ensures q < top { assert q == p || q in ps - {p}; }
    }
  }

  /** Block `p` is shared by its handles, at least one, and by the pool. */
  ghost predicate Counted(mem: map<Ptr, Block>, pool: map<Bytes, Ptr>, hs: multiset<Handle>, p: Ptr)
    requires p in mem
  {
    var b := mem[p];
    b.Fit() && b.Refcnt() == Held(hs, p) + 1 && Held(hs, p) > 0 && b.bytes in pool && pool[b.bytes] == p
  }

  ghost predicate Good(mem: map<Ptr, Block>, pool: map<Bytes, Ptr>, hs: multiset<Handle>) {
    && (forall p :: p in mem ==> Counted(mem, pool, hs, p))
    && (forall k :: k in pool ==> pool[k] in mem && mem[pool[k]].bytes == k)
    && (forall h :: h in hs ==> h.ptr in mem && (h.str ==> mem[h.ptr].IsUtf8()))
  }

  /** `m'` is `m` with the count of block `p` changed by `d`. */
  ghost predicate Recounted(m: map<Ptr, Block>, m': map<Ptr, Block>, p: Ptr, d: int) {
    && m'.Keys == m.Keys && p in m && (forall q :: q in m && q != p ==> m'[q] == m[q])
    && m'[p].Fit() && m'[p].bytes == m[p].bytes && m'[p].IsUtf8() == m[p].IsUtf8() && m'[p].Refcnt() == m[p].Refcnt() + d
  }

  lemma CountOf(mem: map<Ptr, Block>, pool: map<Bytes, Ptr>, hs: multiset<Handle>, p: Ptr)
    requires Good(mem, pool, hs) && p in mem
    ensures mem[p].Fit() && mem[p].Refcnt() == Held(hs, p) + 1 && Held(hs, p) > 0
    ensures mem[p].bytes in pool && pool[mem[p].bytes] == p
  {
    assert Counted(mem, pool, hs, p);
  }

  /** The count of block `p` leaves no room for `n` more holders below the flag. */
  ghost predicate Full(mem: map<Ptr, Block>, p: Ptr, n: nat)
    requires p in mem
  {
    mem[p].Refcnt() + n >= UTF8_MASK
  }

  lemma HandleOf(mem: map<Ptr, Block>, pool: map<Bytes, Ptr>, hs: multiset<Handle>, h: Handle)
    requires Good(mem, pool, hs) && h in hs
    ensures h.ptr in mem && (h.str ==> mem[h.ptr].IsUtf8())
  {}

  lemma Pooled(mem: map<Ptr, Block>, pool: map<Bytes, Ptr>, hs: multiset<Handle>, bytes: Bytes)
    requires Good(mem, pool, hs) && bytes in pool
    ensures pool[bytes] in mem && mem[pool[bytes]].bytes == bytes
  {}

  /** Reading a string handle as UTF-8 without a check is safe. */
  lemma StrIsUtf8(mem: map<Ptr, Block>, pool: map<Bytes, Ptr>, hs: multiset<Handle>, h: Handle)
    requires Good(mem, pool, hs) && h in hs && h.str
    ensures h.ptr in mem && mem[h.ptr].IsUtf8() && Utf8(mem[h.ptr].bytes)
  {
    HandleOf(mem, pool, hs, h);
    CountOf(mem, pool, hs, h.ptr);
  }

  lemma GoodMore(mem: map<Ptr, Block>, pool: map<Bytes, Ptr>, hs: multiset<Handle>, mem': map<Ptr, Block>, h: Handle)
    requires Good(mem, pool, hs) && Recounted(mem, mem', h.ptr, 1) && (h.str ==> mem[h.ptr].IsUtf8())
    ensures Good(mem', pool, hs + multiset{h}) && Same(mem, mem')
  {
    hide Utf8, Held, Block.Refcnt, Block.IsUtf8, Block.Fit;
    forall q ensures Held(hs + multiset{h}, q) == Held(hs, q) + if q == h.ptr then 1 else 0 { HeldMore(hs, h, q); }
    forall q | q in mem' ensures Counted(mem', pool, hs + multiset{h}, q) {
      assert Counted(mem, pool, hs, q);
    }
  }

  lemma GoodFlag(mem: map<Ptr, Block>, pool: map<Bytes, Ptr>, hs: multiset<Handle>, mem': map<Ptr, Block>, p: Ptr)
    requires Good(mem, pool, hs) && p in mem && mem'.Keys == mem.Keys && forall q :: q in mem && q != p ==> mem'[q] == mem[q]
    requires mem'[p].Fit() && mem'[p].bytes == mem[p].bytes && mem'[p].IsUtf8() && mem'[p].Refcnt() == mem[p].Refcnt()
    ensures Good(mem', pool, hs) && Same(mem, mem')
  {
    hide Utf8, Held, Block.Refcnt, Block.IsUtf8, Block.Fit;
    forall q | q in mem' ensures Counted(mem', pool, hs, q) {
      assert Counted(mem, pool, hs, q);
    }
  }

  lemma GoodNew(mem: map<Ptr, Block>, pool: map<Bytes, Ptr>, hs: multiset<Handle>, p: Ptr, b: Block)
    requires Good(mem, pool, hs) && p !in mem && b.bytes !in pool && b.Fit() && b.Refcnt() == 2
    ensures Good(mem[p := b], pool[b.bytes := p], hs + multiset{Handle(p, false)}) && Same(mem, mem[p := b])
  {
    hide Utf8, Held, Block.Refcnt, Block.IsUtf8, Block.Fit;
    var h := Handle(p, false);
    var hs', mem', pool' := hs + multiset{h}, mem[p := b], pool[b.bytes := p];
    forall q ensures Held(hs', q) == Held(hs, q) + if q == p then 1 else 0 { HeldMore(hs, h, q); }
    NoHandles(hs, p);
    forall q | q in mem' ensures Counted(mem', pool', hs', q) {
      if q != p { assert Counted(mem, pool, hs, q); }
    }
  }

  lemma NoHandles(hs: multiset<Handle>, p: Ptr)
    requires forall h :: h in hs ==> h.ptr != p
    ensures Held(hs, p) == 0
  {
    assert Handle(p, true) !in hs && Handle(p, false) !in hs;
  }

  /** Dropping a handle that is not the block's last. */
  lemma GoodLess(mem: map<Ptr, Block>, pool: map<Bytes, Ptr>, hs: multiset<Handle>, mem': map<Ptr, Block>, h: Handle)
    requires Good(mem, pool, hs) && h in hs && Held(hs, h.ptr) > 1 && Recounted(mem, mem', h.ptr, -1)
    ensures Good(mem', pool, hs - multiset{h}) && Same(mem, mem')
  {
    hide Utf8, Held, Block.Refcnt, Block.IsUtf8, Block.Fit;
    forall q ensures Held(hs - multiset{h}, q) == Held(hs, q) - if q == h.ptr then 1 else 0 { HeldMore(hs, h, q); }
    forall q | q in mem' ensures Counted(mem', pool, hs - multiset{h}, q) {
      assert Counted(mem, pool, hs, q);
    }
  }

  /** Dropping the last handle: pool entry and block go. */
  lemma GoodLast(mem: map<Ptr, Block>, pool: map<Bytes, Ptr>, hs: multiset<Handle>, h: Handle)
    requires Good(mem, pool, hs) && h in hs && Held(hs, h.ptr) == 1 && h.ptr in mem
    ensures Good(mem - {h.ptr}, pool - {mem[h.ptr].bytes}, hs - multiset{h}) && Same(mem, mem - {h.ptr})
  {
    hide Utf8, Held, Block.Refcnt, Block.IsUtf8, Block.Fit;
    var hs', p := hs - multiset{h}, h.ptr;
    var mem', pool' := mem - {p}, pool - {mem[p].bytes};
    forall q ensures Held(hs', q) == Held(hs, q) - if q == p then 1 else 0 { HeldMore(hs, h, q); }
    assert Counted(mem, pool, hs, p);
    forall q | q in mem' ensures Counted(mem', pool', hs', q) {
      assert Counted(mem, pool, hs, q);
    }
    forall g | g in hs' ensures g.ptr in mem' && (g.str ==> mem'[g.ptr].IsUtf8()) {
      assert g in hs;
      if g.ptr == p { HeldOne(hs', g); }
    }
  }

  lemma HeldOne(hs: multiset<Handle>, h: Handle)
    requires h in hs
    ensures Held(hs, h.ptr) > 0
  {}

  /** Handles to equal bytes are handles to one block. */
  lemma Canonical(mem: map<Ptr, Block>, pool: map<Bytes, Ptr>, hs: multiset<Handle>, a: Handle, b: Handle)
    requires Good(mem, pool, hs) && a in hs && b in hs
    ensures a.ptr in mem && b.ptr in mem && (a.ptr == b.ptr <==> mem[a.ptr].bytes == mem[b.ptr].bytes)
  {
    HandleOf(mem, pool, hs, a);
    HandleOf(mem, pool, hs, b);
    CountOf(mem, pool, hs, a.ptr);
    CountOf(mem, pool, hs, b.ptr);
  }

  /** Nothing outlives its last handle. */
  lemma NothingLeft(mem: map<Ptr, Block>, pool: map<Bytes, Ptr>)
    requires Good(mem, pool, multiset{})
    ensures mem == map[] && pool == map[]
  {
    assert mem.Keys == {} by {
      forall p ensures p !in mem { if p in mem { CountOf(mem, pool, multiset{}, p); } }
    }
    assert pool.Keys == {};
  }

  class Interner {
    var mem: map<Ptr, Block>
    var pool: map<Bytes, Ptr>
    /** Handles the program holds. */
    ghost var handles: multiset<Handle>

    constructor ()
      ensures Valid() && handles == multiset{} && mem == map[] && pool == map[]
    {
      mem, pool, handles := map[], map[], multiset{};
    }

    ghost predicate Valid()
      reads this
    {
      Good(mem, pool, handles)
    }

    // -------------------------------------------------------------- counts in place

    /** A count that would spill into the flag is refused. */
    method SetRefcnt(p: Ptr, cnt: nat) returns (ok: bool)
      requires p in mem && mem[p].Fit()
      modifies `mem
      ensures ok == (cnt < UTF8_MASK)
      ensures if ok then Recounted(old(mem), mem, p, cnt - old(mem[p].Refcnt())) else mem == old(mem)
    {
      if cnt >= UTF8_MASK { return false; }
      mem := mem[p := mem[p].(word := mem[p].word / UTF8_MASK * UTF8_MASK + cnt)];
      return true;
    }

    method SetIsUtf8(p: Ptr)
      requires p in mem && mem[p].Fit() && Utf8(mem[p].bytes)
      modifies `mem
      ensures mem.Keys == old(mem.Keys) && forall q :: q in mem && q != p ==> mem[q] == old(mem[q])
      ensures mem[p].Fit() && mem[p].bytes == old(mem[p].bytes) && mem[p].IsUtf8()
      ensures mem[p].Refcnt() == old(mem[p].Refcnt())
    {
      mem := mem[p := mem[p].(word := UTF8_MASK + mem[p].word % UTF8_MASK)];
    }

    method CloneBlock(p: Ptr) returns (ok: bool)
      requires p in mem && mem[p].Fit()
      modifies `mem
      ensures ok == (old(mem[p].Refcnt()) + 1 < UTF8_MASK)
      ensures if ok then Recounted(old(mem), mem, p, 1) else mem == old(mem)
    {
      ok := SetRefcnt(p, mem[p].Refcnt() + 1);
    }

    /** Give one reference back; the last one frees the block. */
    method DropBlock(p: Ptr)
      requires p in mem && mem[p].Fit() && mem[p].Refcnt() > 0
      modifies `mem
      ensures if old(mem[p].Refcnt()) == 1 then mem == old(mem) - {p} else Recounted(old(mem), mem, p, -1)
    {
      var refcnt := mem[p].Refcnt() - 1;
      var ok := SetRefcnt(p, refcnt);
      if refcnt == 0 { mem := mem - {p}; }
    }

    // -------------------------------------------------------------- handles

    method InternBytes(bytes: Bytes) returns (r: Result<Handle>)
      requires Valid()
      modifies this
      ensures Valid() && !r.NotUtf8? && Same(old(mem), mem)
      ensures r.Done? ==> r.v.ptr in mem && mem[r.v.ptr].bytes == bytes && !r.v.str
      ensures r.Done? ==> handles == old(handles) + multiset{r.v} && mem.Keys == old(mem.Keys) + {r.v.ptr}
      ensures r.Done? ==> (r.v.ptr in old(mem) <==> bytes in old(pool))
      ensures r.Done? && bytes in old(pool) ==> r.v.ptr == old(pool)[bytes] && mem[r.v.ptr].Refcnt() == old(mem[pool[bytes]].Refcnt()) + 1
      ensures r.Done? && bytes !in old(pool) ==> mem[r.v.ptr].Refcnt() == 2
      ensures r.Panic? ==> handles == old(handles) && mem == old(mem) && pool == old(pool)
      ensures r.Panic? <==> if bytes in old(pool) then Full(old(mem), old(pool)[bytes], 1) else |bytes| >= MAX_SIZE
    {
      hide Same, Block.Refcnt, Block.IsUtf8, Block.Fit;
      if bytes in pool {
        hide Counted;
        r := Another(pool[bytes], false);
      } else {
        hide Good;
        r := Create(bytes);
      }
    }

    /** A vacant pool entry: the new block is shared by the pool and the handle returned. */
    method Create(bytes: Bytes) returns (r: Result<Handle>)
      requires Valid() && bytes !in pool
      modifies this
      ensures Valid() && !r.NotUtf8? && Same(old(mem), mem)
      ensures r.Done? ==> r.v.ptr !in old(mem) && mem.Keys == old(mem.Keys) + {r.v.ptr}
      ensures r.Done? ==> mem[r.v.ptr].bytes == bytes && !r.v.str && handles == old(handles) + multiset{r.v}
      ensures r.Done? ==> mem[r.v.ptr].Refcnt() == 2
      ensures r.Panic? ==> handles == old(handles) && mem == old(mem) && pool == old(pool)
      ensures r.Panic? <==> |bytes| >= MAX_SIZE
    {
      hide Good, Utf8, Held;
      if |bytes| >= MAX_SIZE { return Panic; }
      ghost var top := Above(mem.Keys);
      assert top !in mem;
      var p :| p !in mem;
      mem, pool := mem[p := Block(bytes, 1)], pool[bytes := p];
      var ok := CloneBlock(p);
      GoodNew(old(mem), old(pool), handles, p, mem[p]);
      assert mem == old(mem)[p := mem[p]];
      r := Done(Handle(p, false));
      handles := handles + multiset{r.v};
    }

    /** One more handle to a block; a string handle only if it is known to be UTF-8. */
    method Another(p: Ptr, str: bool) returns (r: Result<Handle>)
      requires Valid() && p in mem && (str ==> mem[p].IsUtf8())
      modifies `mem, `handles
      ensures Valid() && !r.NotUtf8? && mem.Keys == old(mem.Keys) && Same(old(mem), mem)
      ensures p in mem && mem[p].IsUtf8() == old(mem[p].IsUtf8())
      ensures r.Done? ==> r.v == Handle(p, str) && handles == old(handles) + multiset{r.v}
      ensures r.Done? ==> mem[p].Refcnt() == old(mem[p].Refcnt()) + 1
      ensures r.Panic? ==> handles == old(handles) && mem == old(mem)
      ensures r.Panic? <==> Full(old(mem), p, 1)
    {
      hide Good, Utf8, Held, Block.Refcnt, Block.IsUtf8, Block.Fit;
      CountOf(mem, pool, handles, p);
      var ok := CloneBlock(p);
      if !ok { return Panic; }
      r := Done(Handle(p, str));
      GoodMore(old(mem), pool, handles, mem, r.v);
      handles := handles + multiset{r.v};
    }

    /** The last handle takes the block out of the pool first and frees it then. */
    method Drop(h: Handle)
      requires Valid() && h in handles
      modifies this
      ensures Valid() && handles == old(handles) - multiset{h} && Same(old(mem), mem) && h.ptr in old(mem)
      ensures var last := Held(old(handles), h.ptr) == 1;
              && mem.Keys == (if last then old(mem.Keys) - {h.ptr} else old(mem.Keys))
              && pool == (if last then old(pool) - {old(mem)[h.ptr].bytes} else old(pool))
    {
      hide Good, Same, Utf8, Held, Block.Refcnt, Block.IsUtf8, Block.Fit;
      var p := h.ptr;
      HandleOf(mem, pool, handles, h);
      CountOf(mem, pool, handles, p);
      if mem[p].Refcnt() <= 2 && mem[p].bytes in pool {
        GoodLast(mem, pool, handles, h);
        var bytes := mem[p].bytes;
        var pooled := pool[bytes];
        pool := pool - {bytes};
        DropBlock(pooled);
      }
      DropBlock(p);
      if mem.Keys == old(mem.Keys) {
        GoodLess(old(mem), pool, handles, mem, h);
      } else {
        assert mem == old(mem) - {p};
      }
      handles := handles - multiset{h};
    }

    method CloneHandle(h: Handle) returns (r: Result<Handle>)
      requires Valid() && h in handles
      modifies this
      ensures Valid() && !r.NotUtf8? && mem.Keys == old(mem.Keys) && Same(old(mem), mem)
      ensures r.Done? ==> r.v == h && handles == old(handles) + multiset{h}
      ensures r.Panic? ==> handles == old(handles)
      ensures h.ptr in old(mem) && (r.Panic? <==> Full(old(mem), h.ptr, 1))
    {
      hide Good, Same, Utf8, Held, Full, Block.IsUtf8, Block.Refcnt;
      HandleOf(mem, pool, handles, h);
      r := Another(h.ptr, h.str);
    }

    method CastBytes(h: Handle) returns (r: Result<Handle>)
      requires Valid() && h in handles && h.str
      modifies this
      ensures Valid() && !r.NotUtf8? && mem.Keys == old(mem.Keys) && Same(old(mem), mem)
      ensures r.Done? ==> r.v == Handle(h.ptr, false) && handles == old(handles) - multiset{h} + multiset{r.v}
      ensures r.Panic? ==> handles == old(handles)
      ensures h.ptr in old(mem) && (r.Panic? <==> Full(old(mem), h.ptr, 1))
    {
      hide Good, Utf8, Held, Full, Block.IsUtf8, Block.Refcnt;
      HandleOf(mem, pool, handles, h);
      r := Another(h.ptr, false);
      if r.Done? {
        Swap(old(handles), h, r.v);
        Drop(h);
      }
    }

    /** The byte handle is used up either way. */
    method CastStr(h: Handle) returns (r: Result<Handle>)
      requires Valid() && h in handles && !h.str
      modifies this
      ensures Valid() && Same(old(mem), mem) && h.ptr in old(mem)
      ensures r.NotUtf8? <==> !Utf8(old(mem)[h.ptr].bytes)
      ensures r.Panic? <==> Utf8(old(mem)[h.ptr].bytes) && Full(old(mem), h.ptr, 1)
      ensures r.Done? ==> r.v == Handle(h.ptr, true) && handles == old(handles) - multiset{h} + multiset{r.v}
      ensures r.Panic? ==> handles == old(handles)
      ensures r.NotUtf8? ==> handles == old(handles) - multiset{h}
      ensures mem.Keys == if r.NotUtf8? && Held(old(handles), h.ptr) == 1 then old(mem.Keys) - {h.ptr} else old(mem.Keys)
    {
      hide Good, Utf8, Held, Block.IsUtf8;
      HandleOf(mem, pool, handles, h);
      var ok := CheckUtf8(h.ptr);
      if ok {
        r := Another(h.ptr, true);
        if r.Done? {
          Swap(old(handles), h, r.v);
          Drop(h);
        }
      } else {
        Drop(h);
        r := NotUtf8;
      }
    }

    /** A positive answer is remembered in the flag. */
    method CheckUtf8(p: Ptr) returns (ok: bool)
      requires Valid() && p in mem
      modifies `mem
      ensures Valid() && mem.Keys == old(mem.Keys) && Same(old(mem), mem)
      ensures ok == Utf8(mem[p].bytes) && (ok ==> mem[p].IsUtf8()) && mem[p].Refcnt() == old(mem[p].Refcnt())
    {
      hide Good, Utf8, Held;
      CountOf(mem, pool, handles, p);
      if mem[p].IsUtf8() { return true; }
      ok := Utf8(mem[p].bytes);
      if ok {
        SetIsUtf8(p);
        GoodFlag(old(mem), pool, handles, mem, p);
      }
    }

    method InternStr(text: Bytes) returns (r: Result<Handle>)
      requires Valid() && Utf8(text)
      modifies this
      ensures Valid() && !r.NotUtf8? && Same(old(mem), mem)
      ensures r.Done? ==> r.v.ptr in mem && mem[r.v.ptr].bytes == text && r.v.str
      ensures r.Done? ==> handles == old(handles) + multiset{r.v} && mem.Keys == old(mem.Keys) + {r.v.ptr}
      ensures r.Done? ==> (r.v.ptr in old(mem) <==> text in old(pool))
      ensures text in old(pool) ==> old(pool)[text] in old(mem)
      ensures r.Panic? <==> if text in old(pool) then Full(old(mem), old(pool)[text], 2) else |text| >= MAX_SIZE
    {
      hide Good, Utf8, Held, Block.Fit, Block.Refcnt, Block.IsUtf8;
      if text in pool { Pooled(mem, pool, handles, text); }
      r := InternBytes(text);
      if r.Panic? { return; }
      var h := r.v;
      CountOf(mem, pool, handles, h.ptr);
      label Interned:
      SetIsUtf8(h.ptr);
      GoodFlag(old@Interned(mem), pool, handles, mem, h.ptr);
      r := Another(h.ptr, true);
      if r.Done? {
        Swap(old(handles) + multiset{h}, h, r.v);
        Drop(h);
      }
    }

    /** After a cast both handles are there until the old one goes. */
    lemma Swap(hs: multiset<Handle>, h: Handle, g: Handle)
      requires h in hs && h.ptr == g.ptr
      ensures hs + multiset{g} - multiset{h} == hs - multiset{h} + multiset{g}
      ensures Held(hs + multiset{g}, h.ptr) > 1
    {
      HeldMore(hs, g, h.ptr);
      HeldOne(hs, h);
    }
  }

  // ---------------------------------------------------------------- programs over handles

  /** A string as it would be without interning. */
  datatype Value = Value(bytes: Bytes, str: bool)

  datatype Op =
    | FromBytes(bytes: Bytes) | FromStr(bytes: Bytes) | Copy(i: nat) | ToBytes(i: nat) | ToStr(i: nat) | Forget(i: nat)

  function Without<T>(s: seq<T>, i: nat): (r: seq<T>)
    requires i < |s|
    ensures |r| == |s| - 1
  {
    s[..i] + s[i + 1..]
  }

  /** What `op` does to plain strings; one that the types rule out does nothing. */
  function Plain(vs: seq<Value>, op: Op): seq<Value> {
    match op
    case FromBytes(b) => vs + [Value(b, false)]
    case FromStr(b) => if Utf8(b) then vs + [Value(b, true)] else vs
    case Copy(i) => if i < |vs| then vs + [vs[i]] else vs
    case ToBytes(i) => if i < |vs| && vs[i].str then Without(vs, i) + [Value(vs[i].bytes, false)] else vs
    case ToStr(i) =>
      if i >= |vs| || vs[i].str then vs
      else if Utf8(vs[i].bytes) then Without(vs, i) + [Value(vs[i].bytes, true)]
      else Without(vs, i)
    case Forget(i) => if i < |vs| then Without(vs, i) else vs
  }

  function PlainRun(ops: seq<Op>): seq<Value> {
    if ops == [] then [] else Plain(PlainRun(ops[..|ops| - 1]), ops[|ops| - 1])
  }

  /** The handles `hs` stand for the strings `vs`. */
  ghost predicate Shows(mem: map<Ptr, Block>, hs: seq<Handle>, vs: seq<Value>) {
    && |hs| == |vs|
    && forall i :: 0 <= i < |hs| ==> hs[i].ptr in mem && vs[i] == Value(mem[hs[i].ptr].bytes, hs[i].str)
  }

  /** A program's handles are handles to blocks in memory. */
  lemma Reachable(m: Interner, hs: seq<Handle>)
    requires m.Valid() && multiset(hs) == m.handles
    ensures forall i :: 0 <= i < |hs| ==> hs[i] in m.handles && hs[i].ptr in m.mem
  {
    forall i | 0 <= i < |hs| ensures hs[i] in m.handles && hs[i].ptr in m.mem {
      assert hs[i] in multiset(hs);
    }
  }

  /** Strings seen through handles stay what they were; `h` is a new handle to `v`. */
  lemma Pushed(m: Interner, mem: map<Ptr, Block>, hs: seq<Handle>, vs: seq<Value>, h: Handle, v: Value)
    requires m.Valid() && multiset(hs + [h]) == m.handles && Shows(mem, hs, vs) && Same(mem, m.mem)
    requires h.ptr in m.mem && v == Value(m.mem[h.ptr].bytes, h.str)
    ensures Shows(m.mem, hs + [h], vs + [v])
  {
    hide Good;
    Reachable(m, hs + [h]);
    forall i | 0 <= i < |hs| ensures hs[i].ptr in m.mem && vs[i] == Value(m.mem[hs[i].ptr].bytes, hs[i].str) {
      assert (hs + [h])[i] == hs[i];
    }
  }

  lemma ShowsWithout(mem: map<Ptr, Block>, hs: seq<Handle>, vs: seq<Value>, i: nat)
    requires i < |hs| && Shows(mem, hs, vs)
    ensures Shows(mem, Without(hs, i), Without(vs, i))
  {}

  lemma Removed(m: Interner, mem: map<Ptr, Block>, hs: seq<Handle>, vs: seq<Value>, i: nat)
    requires m.Valid() && i < |hs| && multiset(Without(hs, i)) == m.handles && Shows(mem, hs, vs) && Same(mem, m.mem)
    ensures i < |vs| && Shows(m.mem, Without(hs, i), Without(vs, i))
  {
    ShowsWithout(mem, hs, vs, i);
    Reachable(m, Without(hs, i));
    hide Good, Without;
  }

  /** The handle at `i` gives way to another to the same block. */
  lemma Replaced(m: Interner, mem: map<Ptr, Block>, hs: seq<Handle>, vs: seq<Value>, i: nat, h: Handle)
    requires m.Valid() && i < |hs| && Shows(mem, hs, vs) && Same(mem, m.mem) && h.ptr == hs[i].ptr
    requires multiset(Without(hs, i) + [h]) == m.handles
    ensures i < |vs| && Shows(m.mem, Without(hs, i) + [h], Without(vs, i) + [Value(vs[i].bytes, h.str)])
  {
    ShowsWithout(mem, hs, vs, i);
    hide Good, Without;
    Reachable(m, Without(hs, i) + [h]);
    assert (Without(hs, i) + [h])[|Without(hs, i)|] == h;
    Pushed(m, mem, Without(hs, i), Without(vs, i), h, Value(vs[i].bytes, h.str));
  }

  lemma MultisetPush<T>(s: seq<T>, x: T)
    ensures multiset(s + [x]) == multiset(s) + multiset{x}
  {}

  lemma MultisetWithout<T>(s: seq<T>, i: nat)
    requires i < |s|
    ensures multiset(Without(s, i)) == multiset(s) - multiset{s[i]}
  {
    assert s == s[..i] + [s[i]] + s[i + 1..];
  }

  /** No block has more holders than there are handles, besides the pool. */
  lemma {:induction false} HeldAtMost(hs: seq<Handle>, p: Ptr)
    ensures Held(multiset(hs), p) <= |hs|
  {
    if hs != [] {
      var n := |hs| - 1;
      assert hs == hs[..n] + [hs[n]];
      MultisetPush(hs[..n], hs[n]);
      HeldMore(multiset(hs[..n]), hs[n], p);
      HeldAtMost(hs[..n], p);
    }
  }

  /** A string the 32-bit length can hold, if `op` makes one. */
  predicate Short(op: Op) {
    op.FromBytes? || op.FromStr? ==> |op.bytes| < MAX_SIZE
  }

  /** With `n` handles about, every count has room for the two holders an operation adds for a while. */
  predicate Roomy(n: nat, op: Op) {
    n + 3 < UTF8_MASK && Short(op)
  }

  lemma NotFull(m: Interner, hs: seq<Handle>, op: Op)
    requires m.Valid() && multiset(hs) == m.handles && Roomy(|hs|, op)
    ensures forall p :: p in m.mem ==> !Full(m.mem, p, 1) && !Full(m.mem, p, 2)
    ensures forall k :: k in m.pool ==> m.pool[k] in m.mem
  {
    forall p | p in m.mem ensures !Full(m.mem, p, 1) && !Full(m.mem, p, 2) {
      CountOf(m.mem, m.pool, m.handles, p);
      HeldAtMost(hs, p);
    }
  }

  /** An operation that makes a new handle; None when a count or size limit is hit. */
  method ApplyNew(m: Interner, hs: seq<Handle>, op: Op, ghost vs: seq<Value>) returns (r: Option<seq<Handle>>)
    requires m.Valid() && multiset(hs) == m.handles && Shows(m.mem, hs, vs)
    requires op.FromBytes? || op.FromStr? || op.Copy?
    modifies m
    ensures m.Valid()
    ensures r.Some? ==> multiset(r.value) == m.handles && Shows(m.mem, r.value, Plain(vs, op))
    ensures Roomy(|hs|, op) ==> r.Some?
    ensures r.Some? ==> |r.value| <= |hs| + 1
  {
    hide Full, Block.Refcnt, Good, Same, Utf8, Shows;
    if Roomy(|hs|, op) { NotFull(m, hs, op); }
    Reachable(m, hs);
    Lengths(m.mem, hs, vs);
    r := Some(hs);
    if op.FromBytes? {
      var x := m.InternBytes(op.bytes);
      if !x.Done? { return None; }
      r := Some(hs + [x.v]);
      Pushed(m, old(m.mem), hs, vs, x.v, Value(op.bytes, false));
    } else if op.FromStr? && Utf8(op.bytes) {
      var x := m.InternStr(op.bytes);
      if !x.Done? { return None; }
      r := Some(hs + [x.v]);
      Pushed(m, old(m.mem), hs, vs, x.v, Value(op.bytes, true));
    } else if op.Copy? && op.i < |hs| {
      var x := m.CloneHandle(hs[op.i]);
      if !x.Done? { return None; }
      r := Some(hs + [x.v]);
      Copied(m, old(m.mem), hs, vs, op.i);
    }
  }

  /** A cast to a string, which may fail and uses up the handle. */
  method ApplyToStr(m: Interner, hs: seq<Handle>, i: nat, ghost vs: seq<Value>) returns (r: Option<seq<Handle>>)
    requires m.Valid() && multiset(hs) == m.handles && Shows(m.mem, hs, vs) && i < |hs|
    modifies m
    ensures m.Valid()
    ensures r.Some? ==> multiset(r.value) == m.handles && Shows(m.mem, r.value, Plain(vs, ToStr(i)))
    ensures Roomy(|hs|, ToStr(i)) ==> r.Some?
    ensures r.Some? ==> |r.value| <= |hs| + 1
  {
    hide Full, Block.Refcnt, Good, Same, Utf8, Shows, Without;
    if Roomy(|hs|, ToStr(i)) { NotFull(m, hs, ToStr(i)); }
    Reachable(m, hs);
    Lengths(m.mem, hs, vs);
    if hs[i].str { return Some(hs); }
    MultisetWithout(hs, i);
    var x := m.CastStr(hs[i]);
    if x.Panic? { return None; }
    if x.Done? {
      r := Some(Without(hs, i) + [x.v]);
      MultisetPush(Without(hs, i), x.v);
      Replaced(m, old(m.mem), hs, vs, i, x.v);
    } else {
      r := Some(Without(hs, i));
      Removed(m, old(m.mem), hs, vs, i);
    }
  }

  /** Any other operation that uses up a handle. */
  method ApplyOld(m: Interner, hs: seq<Handle>, op: Op, ghost vs: seq<Value>) returns (r: Option<seq<Handle>>)
    requires m.Valid() && multiset(hs) == m.handles && Shows(m.mem, hs, vs)
    requires (op.ToBytes? || op.Forget?) && op.i < |hs|
    modifies m
    ensures m.Valid()
    ensures r.Some? ==> multiset(r.value) == m.handles && Shows(m.mem, r.value, Plain(vs, op))
    ensures Roomy(|hs|, op) ==> r.Some?
    ensures r.Some? ==> |r.value| <= |hs| + 1
  {
    hide Full, Block.Refcnt, Good, Same, Utf8, Shows, Without;
    if Roomy(|hs|, op) { NotFull(m, hs, op); }
    Reachable(m, hs);
    Lengths(m.mem, hs, vs);
    var i := op.i;
    MultisetWithout(hs, i);
    if op.Forget? {
      m.Drop(hs[i]);
      r := Some(Without(hs, i));
      Removed(m, old(m.mem), hs, vs, i);
    } else if hs[i].str {
      var x := m.CastBytes(hs[i]);
      if !x.Done? { return None; }
      r := Some(Without(hs, i) + [x.v]);
      MultisetPush(Without(hs, i), x.v);
      Replaced(m, old(m.mem), hs, vs, i, x.v);
    } else {
      r := Some(hs);
    }
  }

  /** One operation on the handles `hs`. */
  method Apply(m: Interner, hs: seq<Handle>, op: Op, ghost vs: seq<Value>) returns (r: Option<seq<Handle>>)
    requires m.Valid() && multiset(hs) == m.handles && Shows(m.mem, hs, vs)
    modifies m
    ensures m.Valid()
    ensures r.Some? ==> multiset(r.value) == m.handles && Shows(m.mem, r.value, Plain(vs, op))
    ensures Roomy(|hs|, op) ==> r.Some?
    ensures r.Some? ==> |r.value| <= |hs| + 1
  {
    hide Good, Utf8, Without;
    if op.FromBytes? || op.FromStr? || op.Copy? {
      r := ApplyNew(m, hs, op, vs);
    } else if op.i < |hs| && op.ToStr? {
      r := ApplyToStr(m, hs, op.i, vs);
    } else if op.i < |hs| {
      r := ApplyOld(m, hs, op, vs);
    } else {
      r := Some(hs);
    }
  }

  lemma Lengths(mem: map<Ptr, Block>, hs: seq<Handle>, vs: seq<Value>)
    requires Shows(mem, hs, vs)
    ensures |hs| == |vs|
    ensures forall i :: 0 <= i < |hs| ==> hs[i].ptr in mem && vs[i] == Value(mem[hs[i].ptr].bytes, hs[i].str)
  {}

  lemma Copied(m: Interner, mem: map<Ptr, Block>, hs: seq<Handle>, vs: seq<Value>, i: nat)
    requires m.Valid() && i < |hs| && multiset(hs + [hs[i]]) == m.handles && Shows(mem, hs, vs) && Same(mem, m.mem)
    ensures Shows(m.mem, hs + [hs[i]], vs + [vs[i]])
  {
    Reachable(m, hs + [hs[i]]);
    assert (hs + [hs[i]])[i] == hs[i];
    Pushed(m, mem, hs, vs, hs[i], vs[i]);
  }

  /** Any program of operations sees the strings it would see without interning; pointer equality of
      handles is equality of their bytes, and with the last handle gone no block is left. It gets through
      unless a string is too long or there may be as many handles as a count can hold. */
  method Run(m: Interner, ops: seq<Op>) returns (r: Option<seq<Handle>>)
    requires m.Valid() && m.handles == multiset{}
    modifies m
    ensures m.Valid()
    ensures r.Some? ==> multiset(r.value) == m.handles && Shows(m.mem, r.value, PlainRun(ops))
    ensures r.Some? ==> forall i, j :: 0 <= i < |r.value| && 0 <= j < |r.value| ==>
              (r.value[i].ptr == r.value[j].ptr <==> PlainRun(ops)[i].bytes == PlainRun(ops)[j].bytes)
    ensures r.Some? && PlainRun(ops) == [] ==> m.mem == map[] && m.pool == map[]
    ensures |ops| < UTF8_MASK - 2 && (forall op :: op in ops ==> Short(op)) ==> r.Some?
  {
    hide Good, Plain;
    var hs: seq<Handle> := [];
    var n := 0;
    while n < |ops|
      invariant n <= |ops| && m.Valid()
      invariant multiset(hs) == m.handles && Shows(m.mem, hs, PlainRun(ops[..n])) && |hs| <= n
    {
      assert ops[..n + 1][..n] == ops[..n];
      var x := Apply(m, hs, ops[n], PlainRun(ops[..n]));
      if x.None? {
        assert !Roomy(|hs|, ops[n]) && ops[n] in ops;
        return None;
      }
      hs, n := x.value, n + 1;
    }
    assert ops[..n] == ops;
    Reachable(m, hs);
    forall i, j | 0 <= i < |hs| && 0 <= j < |hs|
      ensures hs[i].ptr == hs[j].ptr <==> PlainRun(ops)[i].bytes == PlainRun(ops)[j].bytes
    {
      Canonical(m.mem, m.pool, m.handles, hs[i], hs[j]);
    }
    if hs == [] { NothingLeft(m.mem, m.pool); }
    r := Some(hs);
  }
}
