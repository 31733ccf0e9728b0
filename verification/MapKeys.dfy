/** Maps kept in a contract's storage under length-prefixed composite keys
    (contract-sdk/storage/src/map.rs and cell.rs). */
module ContractMaps {
  import opened Basics

  const MAX_LENGTH := 255

  /** The type of a map's keys. Tuples nest. */
  datatype KeyType =
    | Blob
    | Sized(size: nat)
    | Unsigned(width: nat)
    | Signed(width: nat)
    | Pair(first: KeyType, second: KeyType)
    | Triple(first: KeyType, second: KeyType, third: KeyType)

  datatype Key =
    | Raw(bytes: Bytes)
    | Number(value: int)
    | Two(fst: Key, snd: Key)
    | Three(fst: Key, snd: Key, thd: Key)

  function Pow256(n: nat): (p: nat)
    ensures p > 0
  {
    if n == 0 then 1 else 256 * Pow256(n - 1)
  }

  predicate HasType(k: Key, t: KeyType) {
    match t
    case Blob => k.Raw?
    case Sized(n) => k.Raw? && |k.bytes| == n
    case Unsigned(w) => k.Number? && 0 <= k.value < Pow256(w)
    case Signed(w) => k.Number? && 0 <= 2 * k.value + Pow256(w) < 2 * Pow256(w)
    case Pair(t, u) => k.Two? && HasType(k.fst, t) && HasType(k.snd, u)
    case Triple(t, u, v) => k.Three? && HasType(k.fst, t) && HasType(k.snd, u) && HasType(k.thd, v)
  }

  /** The `w` big-endian bytes of a number. */
  function BigEndian(n: nat, w: nat): (b: Bytes)
    ensures |b| == w
  {
    if w == 0 then [] else BigEndian(n / 256, w - 1) + [(n % 256) as byte]
  }

  /** The composite key: the components of a key, from left to right. Signed numbers are in two's
      complement. */
  function Components(k: Key, t: KeyType): (c: seq<Bytes>)
    requires HasType(k, t)
    ensures |c| == Arity(t)
  {
    match t
    case Blob => [k.bytes]
    case Sized(_) => [k.bytes]
    case Unsigned(w) => [BigEndian(k.value, w)]
    case Signed(w) => [BigEndian(if k.value < 0 then k.value + Pow256(w) else k.value, w)]
    case Pair(t, u) => Components(k.fst, t) + Components(k.snd, u)
    case Triple(t, u, v) => Components(k.fst, t) + Components(k.snd, u) + Components(k.thd, v)
  }

  function Arity(t: KeyType): (n: nat)
    ensures n > 0
  {
    match t
    case Pair(t, u) => Arity(t) + Arity(u)
    case Triple(t, u, v) => Arity(t) + Arity(u) + Arity(v)
    case _ => 1
  }

  lemma {:induction false} BigEndianIsExact(n: nat, m: nat, w: nat)
    requires n < Pow256(w) && m < Pow256(w) && BigEndian(n, w) == BigEndian(m, w)
    ensures n == m
  {
    if w > 0 {
      var a, b := BigEndian(n, w), BigEndian(m, w);
      assert a[w - 1] == b[w - 1] && a[..w - 1] == b[..w - 1];
      assert a[..w - 1] == BigEndian(n / 256, w - 1) && b[..w - 1] == BigEndian(m / 256, w - 1);
      BigEndianIsExact(n / 256, m / 256, w - 1);
    }
  }

  /** Keys of one type are told apart by their components. */
  lemma {:induction false} ComponentsAreExact(k: Key, l: Key, t: KeyType)
    requires HasType(k, t) && HasType(l, t) && Components(k, t) == Components(l, t)
    ensures k == l
  {
    var a, b := Components(k, t), Components(l, t);
    match t {
      case Blob => assert a[0] == b[0];
      case Sized(_) => assert a[0] == b[0];
      case Unsigned(w) =>
        assert a[0] == b[0];
        BigEndianIsExact(k.value, l.value, w);
      case Signed(w) =>
        assert a[0] == b[0];
        var m := if k.value < 0 then k.value + Pow256(w) else k.value;
        var n := if l.value < 0 then l.value + Pow256(w) else l.value;
        BigEndianIsExact(m, n, w);
      case Pair(t, u) =>
        SplitsAlike(Components(k.fst, t), Components(k.snd, u), Components(l.fst, t), Components(l.snd, u));
        ComponentsAreExact(k.fst, l.fst, t);
        ComponentsAreExact(k.snd, l.snd, u);
      case Triple(t, u, v) =>
        SplitsAlike(Components(k.fst, t) + Components(k.snd, u), Components(k.thd, v),
                    Components(l.fst, t) + Components(l.snd, u), Components(l.thd, v));
        SplitsAlike(Components(k.fst, t), Components(k.snd, u), Components(l.fst, t), Components(l.snd, u));
        ComponentsAreExact(k.fst, l.fst, t);
        ComponentsAreExact(k.snd, l.snd, u);
        ComponentsAreExact(k.thd, l.thd, v);
    }
  }

  lemma SplitsAlike<T>(a: seq<T>, b: seq<T>, c: seq<T>, d: seq<T>)
    requires |a| == |c| && a + b == c + d
    ensures a == c && b == d
  {
    assert a == (a + b)[..|a|] == c;
    assert b == (a + b)[|a|..] == d;
  }

  /** The middle of a path: every component after its length. */
  function Middle(ks: seq<Bytes>): Bytes
    requires Short(ks)
  {
    if ks == [] then [] else [|ks[0]| as byte] + ks[0] + Middle(ks[1..])
  }

  /** Every component's length fits a byte. */
  predicate Short(ks: seq<Bytes>) {
    forall i | 0 <= i < |ks| :: |ks[i]| <= MAX_LENGTH
  }

  lemma {:induction false} MiddleAppends(ks: seq<Bytes>, k: Bytes)
    requires Short(ks) && |k| <= MAX_LENGTH
    ensures Middle(ks + [k]) == Middle(ks) + [|k| as byte] + k
  {
    if ks == [] {
      assert [k][1..] == [];
    } else {
      MiddleAppends(ks[1..], k);
      assert (ks + [k])[1..] == ks[1..] + [k];
    }
  }

  /** Encode a path: the front and the back have no length. A component that is too long to be
      given a length is a panic. */
  method EncodePath(front: Bytes, middle: seq<Bytes>, back: Bytes) returns (r: Option<Bytes>)
    ensures r.None? <==> !Short(middle)
    ensures r.Some? ==> r.value == front + Middle(middle) + back
  {
    var output := front;
    for i := 0 to |middle|
      invariant Short(middle[..i]) && output == front + Middle(middle[..i])
    {
      if |middle[i]| > MAX_LENGTH {
        return None;
      }
      MiddleAppends(middle[..i], middle[i]);
      assert middle[..i + 1] == middle[..i] + [middle[i]];
      output := output + [|middle[i]| as byte];
      output := output + middle[i];
    }
    assert middle[..|middle|] == middle;
    return Some(output + back);
  }

  /** Keys whose components other than the last are at most 255 bytes long. */
  predicate Encodable(k: Key, t: KeyType)
    requires HasType(k, t)
  {
    Short(Components(k, t)[..Arity(t) - 1])
  }

  /** Where a map keeps the value of a key. */
  function Path(id: Bytes, k: Key, t: KeyType): (p: Bytes)
    requires HasType(k, t) && Encodable(k, t)
  {
    var c := Components(k, t);
    id + Middle(c[..Arity(t) - 1]) + c[Arity(t) - 1]
  }

  lemma {:induction false} MiddleIsExact(m: seq<Bytes>, b: Bytes, n: seq<Bytes>, c: Bytes)
    requires |m| == |n| && Short(m) && Short(n) && Middle(m) + b == Middle(n) + c
    ensures m == n && b == c
  {
    if m == [] {
      assert Middle(m) + b == b && Middle(n) + c == c;
    } else {
      var s, t := Middle(m) + b, Middle(n) + c;
      assert s[0] == |m[0]| as byte && t[0] == |n[0]| as byte;
      assert s == [s[0]] + (m[0] + (Middle(m[1..]) + b)) && t == [t[0]] + (n[0] + (Middle(n[1..]) + c));
      SplitsAlike([s[0]], m[0] + (Middle(m[1..]) + b), [t[0]], n[0] + (Middle(n[1..]) + c));
      SplitsAlike(m[0], Middle(m[1..]) + b, n[0], Middle(n[1..]) + c);
      MiddleIsExact(m[1..], b, n[1..], c);
      assert m == [m[0]] + m[1..] && n == [n[0]] + n[1..];
    }
  }

  /** Within a map, different keys have different paths. */
  lemma PathIsExact(id: Bytes, k: Key, l: Key, t: KeyType)
    requires HasType(k, t) && HasType(l, t) && Encodable(k, t) && Encodable(l, t) && Path(id, k, t) == Path(id, l, t)
    ensures k == l
  {
    hide Components, HasType, Middle, Short;
    var n := Arity(t) - 1;
    var a, b := Components(k, t), Components(l, t);
    SplitsAlike(id, Middle(a[..n]) + a[n], id, Middle(b[..n]) + b[n]) by {
      assert id + (Middle(a[..n]) + a[n]) == Path(id, k, t) == Path(id, l, t) == id + (Middle(b[..n]) + b[n]);
    }
    MiddleIsExact(a[..n], a[n], b[..n], b[n]);
    assert a == a[..n] + [a[n]] && b == b[..n] + [b[n]];
    ComponentsAreExact(k, l, t);
  }

  /** The key type has to be fixed: two types with different numbers of components can collide under
      one identifier. */
  lemma TypesCollide(id: Bytes, x: Bytes, y: Bytes)
    requires |x| <= MAX_LENGTH
    ensures var k, l := Two(Raw(x), Raw(y)), Raw([|x| as byte] + x + y);
            && HasType(k, Pair(Blob, Blob)) && HasType(l, Blob) && Encodable(k, Pair(Blob, Blob)) && Encodable(l, Blob)
            && Path(id, k, Pair(Blob, Blob)) == Path(id, l, Blob)
  {
    var k := Two(Raw(x), Raw(y));
    assert HasType(Raw(x), Blob) && HasType(Raw(y), Blob);
    assert Components(k, Pair(Blob, Blob)) == [x] + [y] == [x, y];
    assert [x, y][..1] == [x] && [x][1..] == [];
    assert Middle([x]) == [|x| as byte] + x;
    var l := [|x| as byte] + x + y;
    assert Components(Raw(l), Blob) == [l] && [l][..0] == [];
  }

  /** A first component of its own makes a map within the map: the rest of the key is kept as under the
      identifier followed by that component and its length. */
  lemma PairsNest(id: Bytes, x: Bytes, k: Key, t: KeyType)
    requires HasType(k, t)
    ensures var pair, s := Two(Raw(x), k), Pair(Blob, t);
            && HasType(pair, s)
            && (Encodable(pair, s) <==> |x| <= MAX_LENGTH && Encodable(k, t))
            && (Encodable(pair, s) ==> Path(id, pair, s) == Path(id + [|x| as byte] + x, k, t))
  {
    hide Middle, Short;
    assert HasType(Raw(x), Blob);
    var c, n := Components(k, t), Arity(t) - 1;
    var all := [x] + c;
    assert Components(Two(Raw(x), k), Pair(Blob, t)) == all;
    assert all[..n + 1] == [x] + c[..n] && all[n + 1] == c[n];
    ShortAppends(x, c[..n]);
    if Short(all[..n + 1]) {
      MiddleStarts(x, c[..n]);
      assert id + ([|x| as byte] + x + Middle(c[..n])) + c[n] == id + [|x| as byte] + x + Middle(c[..n]) + c[n];
    }
  }

  lemma ShortAppends(x: Bytes, ks: seq<Bytes>)
    ensures Short([x] + ks) <==> |x| <= MAX_LENGTH && Short(ks)
  {
    if Short([x] + ks) {
      assert ([x] + ks)[0] == x;
      assert forall i | 0 <= i < |ks| :: ks[i] == ([x] + ks)[i + 1];
    }
  }

  lemma MiddleStarts(x: Bytes, ks: seq<Bytes>)
    requires |x| <= MAX_LENGTH && Short(ks) && Short([x] + ks)
    ensures Middle([x] + ks) == [|x| as byte] + x + Middle(ks)
  {
    assert ([x] + ks)[1..] == ks;
  }

  lemma PairComponents(k: Key, l: Key, t: KeyType, u: KeyType)
    requires HasType(k, t) && HasType(l, u)
    ensures HasType(Two(k, l), Pair(t, u))
    ensures Components(Two(k, l), Pair(t, u)) == Components(k, t) + Components(l, u)
  {
  }

  lemma TripleComponents(k: Key, l: Key, m: Key, t: KeyType, u: KeyType, v: KeyType)
    requires HasType(k, t) && HasType(l, u) && HasType(m, v)
    ensures HasType(Three(k, l, m), Triple(t, u, v))
    ensures Components(Three(k, l, m), Triple(t, u, v)) == Components(k, t) + Components(l, u) + Components(m, v)
  {
  }

  /** The components are all that matters of a key and its type. */
  lemma SamePath(id: Bytes, k: Key, t: KeyType, l: Key, u: KeyType)
    requires HasType(k, t) && HasType(l, u) && Components(k, t) == Components(l, u)
    ensures Encodable(k, t) <==> Encodable(l, u)
    ensures Encodable(k, t) ==> Path(id, k, t) == Path(id, l, u)
  {
    hide Components, Arity, HasType, Short, Middle;
    assert Arity(t) == |Components(k, t)| == Arity(u);
  }

  /** A triple is kept where the nested pairs are, in either nesting. */
  lemma TriplesFlatten(id: Bytes, k: Key, l: Key, m: Key, t: KeyType, u: KeyType, v: KeyType)
    requires HasType(k, t) && HasType(l, u) && HasType(m, v)
    ensures var triple, left, right := Three(k, l, m), Two(Two(k, l), m), Two(k, Two(l, m));
            var s, p, q := Triple(t, u, v), Pair(Pair(t, u), v), Pair(t, Pair(u, v));
            && HasType(triple, s) && HasType(left, p) && HasType(right, q)
            && (Encodable(triple, s) <==> Encodable(left, p)) && (Encodable(triple, s) <==> Encodable(right, q))
            && (Encodable(triple, s) ==> Path(id, triple, s) == Path(id, left, p) == Path(id, right, q))
  {
    hide HasType, Components, Encodable, Path;
    TripleComponents(k, l, m, t, u, v);
    PairComponents(k, l, t, u);
    PairComponents(Two(k, l), m, Pair(t, u), v);
    PairComponents(l, m, u, v);
    PairComponents(k, Two(l, m), t, Pair(u, v));
    var a, b, c := Components(k, t), Components(l, u), Components(m, v);
    assert a + b + c == a + (b + c);
    SamePath(id, Three(k, l, m), Triple(t, u, v), Two(Two(k, l), m), Pair(Pair(t, u), v));
    SamePath(id, Three(k, l, m), Triple(t, u, v), Two(k, Two(l, m)), Pair(t, Pair(u, v)));
  }

  /** Some value of one map is kept where the other keeps one of its own. */
  ghost predicate Collide(a: Bytes, b: Bytes) {
    exists s, k, t, l ::
      HasType(k, s) && HasType(l, t) && Encodable(k, s) && Encodable(l, t) && Path(a, k, s) == Path(b, l, t)
  }

  /** Maps can disturb each other exactly if the identifier of one is a prefix of the other's. */
  lemma CollisionsArePrefixes(a: Bytes, b: Bytes)
    ensures Collide(a, b) <==> a <= b || b <= a
  {
    if Collide(a, b) {
      var s, k, t, l :|
        HasType(k, s) && HasType(l, t) && Encodable(k, s) && Encodable(l, t) && Path(a, k, s) == Path(b, l, t);
      var p := Path(a, k, s);
      assert a == p[..|a|] && b == p[..|b|];
    }
    if a <= b {
      BlobPath(a, b[|a|..]);
      BlobPath(b, []);
      assert Path(a, Raw(b[|a|..]), Blob) == Path(b, Raw([]), Blob);
    }
    if b <= a {
      BlobPath(b, a[|b|..]);
      BlobPath(a, []);
      assert Path(a, Raw([]), Blob) == Path(b, Raw(a[|b|..]), Blob);
    }
  }

  lemma BlobPath(id: Bytes, x: Bytes)
    ensures Encodable(Raw(x), Blob) && Path(id, Raw(x), Blob) == id + x
  {
    assert Components(Raw(x), Blob) == [x] && [x][..0] == [];
  }

  /** Keys of one component. */
  predicate Flat(t: KeyType) {
    !t.Pair? && !t.Triple?
  }

  /** The length of such a key's component, if its type fixes it. */
  function Length(t: KeyType): Option<nat>
    requires Flat(t)
  {
    match t
    case Blob => None
    case Sized(n) => Some(n)
    case Unsigned(w) => Some(w)
    case Signed(w) => Some(w)
  }

  predicate OfLength(bytes: Bytes, length: Option<nat>) {
    length.None? || |bytes| == length.value
  }

  lemma FlatPath(id: Bytes, k: Key, t: KeyType)
    requires Flat(t) && HasType(k, t)
    ensures Encodable(k, t) && OfLength(Components(k, t)[0], Length(t)) && Path(id, k, t) == id + Components(k, t)[0]
  {
    var c := Components(k, t);
    assert c[..0] == [] && Arity(t) == 1;
    assert id + Middle([]) == id;
  }

  /** The number that big-endian bytes stand for. */
  function FromBytes(b: Bytes): (n: nat)
    ensures n < Pow256(|b|)
  {
    if b == [] then 0 else FromBytes(b[..|b| - 1]) * 256 + b[|b| - 1] as int
  }

  lemma LowDigit(n: nat, d: byte)
    ensures (n * 256 + d as int) / 256 == n && (n * 256 + d as int) % 256 == d as int
  {
  }

  lemma {:induction false} BytesAreNumbers(b: Bytes)
    ensures BigEndian(FromBytes(b), |b|) == b
  {
    if b != [] {
      hide Pow256;
      var init, last := b[..|b| - 1], b[|b| - 1];
      BytesAreNumbers(init);
      LowDigit(FromBytes(init), last);
      assert b == init + [last];
    }
  }

  /** Every component of the right length belongs to some key. */
  lemma FlatKey(bytes: Bytes, t: KeyType) returns (k: Key)
    requires Flat(t) && OfLength(bytes, Length(t))
    ensures HasType(k, t) && Components(k, t) == [bytes]
  {
    var n := FromBytes(bytes);
    BytesAreNumbers(bytes);
    match t {
      case Blob => k := Raw(bytes);
      case Sized(_) => k := Raw(bytes);
      case Unsigned(_) => k := Number(n);
      case Signed(w) => k := Number(if 2 * n < Pow256(w) then n else n - Pow256(w));
    }
  }

  /** Maps with the given identifiers and key types keep some value in the same place. */
  ghost predicate CollideAs(a: Bytes, s: KeyType, b: Bytes, t: KeyType) {
    exists k, l ::
      HasType(k, s) && HasType(l, t) && Encodable(k, s) && Encodable(l, t) && Path(a, k, s) == Path(b, l, t)
  }

  /** Paths after identifiers of `x` and `y` bytes can be equally long. */
  predicate Meet(x: nat, m: Option<nat>, y: nat, n: Option<nat>) {
    match (m, n)
    case (Some(m), Some(n)) => x + m == y + n
    case (Some(m), None) => x + m >= y
    case (None, Some(n)) => y + n >= x
    case (None, None) => true
  }

  lemma CollisionsMeet(a: Bytes, s: KeyType, b: Bytes, t: KeyType)
    requires Flat(s) && Flat(t) && CollideAs(a, s, b, t)
    ensures (a <= b || b <= a) && Meet(|a|, Length(s), |b|, Length(t))
  {
    hide Components, HasType, Path, Encodable;
    var k, l :| HasType(k, s) && HasType(l, t) && Encodable(k, s) && Encodable(l, t) && Path(a, k, s) == Path(b, l, t);
    FlatPath(a, k, s);
    FlatPath(b, l, t);
    var p := Path(a, k, s);
    assert a == p[..|a|] && b == p[..|b|];
  }

  /** A path that both identifiers begin and that is as long as both types ask for. */
  lemma CommonPath(a: Bytes, m: Option<nat>, b: Bytes, n: Option<nat>) returns (p: Bytes)
    requires (a <= b || b <= a) && Meet(|a|, m, |b|, n)
    ensures a <= p && b <= p && OfLength(p[|a|..], m) && OfLength(p[|b|..], n)
  {
    var longer := if |a| <= |b| then b else a;
    var size := if m.Some? then |a| + m.value else if n.Some? then |b| + n.value else |longer|;
    p := longer + seq(size - |longer|, _ => 0);
    assert p[..|a|] == a && p[..|b|] == b;
  }

  lemma MeetingMapsCollide(a: Bytes, s: KeyType, b: Bytes, t: KeyType)
    requires Flat(s) && Flat(t) && (a <= b || b <= a) && Meet(|a|, Length(s), |b|, Length(t))
    ensures CollideAs(a, s, b, t)
  {
    hide Components, HasType, Path, Encodable, OfLength, Meet;
    var p := CommonPath(a, Length(s), b, Length(t));
    var k := FlatKey(p[|a|..], s);
    var l := FlatKey(p[|b|..], t);
    FlatPath(a, k, s);
    FlatPath(b, l, t);
    assert a + p[|a|..] == p && b + p[|b|..] == p;
  }

  /** Two maps with keys of one component collide exactly if one identifier is a prefix of the other
      and their paths can be equally long. */
  lemma FlatMapsCollide(a: Bytes, s: KeyType, b: Bytes, t: KeyType)
    requires Flat(s) && Flat(t)
    ensures CollideAs(a, s, b, t) <==> (a <= b || b <= a) && Meet(|a|, Length(s), |b|, Length(t))
  {
    hide CollideAs, Meet;
    if CollideAs(a, s, b, t) {
      CollisionsMeet(a, s, b, t);
    }
    if (a <= b || b <= a) && Meet(|a|, Length(s), |b|, Length(t)) {
      MeetingMapsCollide(a, s, b, t);
    }
  }

  /** How values are serialised. */
  datatype Codec<!V> = Codec(encode: V -> Bytes, decode: Bytes -> Option<V>)

  ghost predicate Lossless<V(!new)>(codec: Codec<V>) {
    forall v :: codec.decode(codec.encode(v)) == Some(v)
  }

  /** The part of the store under the map's identifier represents a mathematical map. */
  ghost predicate Represents<V>(data: map<Bytes, Bytes>, id: Bytes, t: KeyType, codec: Codec<V>, m: map<Key, V>) {
    && (forall k | k in m :: HasType(k, t) && Encodable(k, t))
    && forall k | HasType(k, t) && Encodable(k, t) ::
         Lookup(data, Path(id, k, t)) == if k in m then Some(codec.encode(m[k])) else None
  }

  lemma InsertRefines<V>(data: map<Bytes, Bytes>, id: Bytes, t: KeyType, codec: Codec<V>, m: map<Key, V>, k: Key, v: V)
    requires HasType(k, t) && Encodable(k, t) && Represents(data, id, t, codec, m)
    ensures Represents(data[Path(id, k, t) := codec.encode(v)], id, t, codec, m[k := v])
  {
    hide HasType, Encodable, Path;
    forall l | HasType(l, t) && Encodable(l, t) && Path(id, k, t) == Path(id, l, t) ensures k == l {
      PathIsExact(id, k, l, t);
    }
  }

  lemma RemoveRefines<V>(data: map<Bytes, Bytes>, id: Bytes, t: KeyType, codec: Codec<V>, m: map<Key, V>, k: Key)
    requires HasType(k, t) && Encodable(k, t) && Represents(data, id, t, codec, m)
    ensures Represents(data - {Path(id, k, t)}, id, t, codec, m - {k})
  {
    hide HasType, Encodable, Path;
    forall l | HasType(l, t) && Encodable(l, t) && Path(id, k, t) == Path(id, l, t) ensures k == l {
      PathIsExact(id, k, l, t);
    }
  }

  predicate Apart(a: Bytes, b: Bytes) {
    !(a <= b) && !(b <= a)
  }

  /** A change under one identifier is not seen by a map whose identifier is apart from it. */
  lemma OthersAreKept<V>(data: map<Bytes, Bytes>, after: map<Bytes, Bytes>, id: Bytes, other: Bytes, t: KeyType,
                         codec: Codec<V>, m: map<Key, V>)
    requires Apart(id, other) && Represents(data, other, t, codec, m)
    requires forall p | !(id <= p) :: Lookup(after, p) == Lookup(data, p)
    ensures Represents(after, other, t, codec, m)
  {
    hide HasType, Encodable;
    forall k | HasType(k, t) && Encodable(k, t)
      ensures Lookup(after, Path(other, k, t)) == Lookup(data, Path(other, k, t))
    {
      var p := Path(other, k, t);
      assert p[..|other|] == other;
    }
  }

  lemma PathIsUnder(id: Bytes, k: Key, t: KeyType)
    requires HasType(k, t) && Encodable(k, t)
    ensures id <= Path(id, k, t)
  {
  }

  class ContractStore {
    var data: map<Bytes, Bytes>
  }

  datatype Fetched<+V> = Panic | Found(value: Option<V>)

  /** A storage cell: one key of the store, holding a value of a fixed type. */
  class Cell<V> {
    const key: Bytes
    const codec: Codec<V>

    constructor (key: Bytes, codec: Codec<V>)
      ensures this.key == key && this.codec == codec
    {
      this.key, this.codec := key, codec;
    }

    /** Panics on a value that cannot be decoded. */
    method Get(store: ContractStore) returns (r: Fetched<V>)
      ensures r == match Lookup(store.data, key)
                   case None => Found(None)
                   case Some(raw) => var v := codec.decode(raw); if v.None? then Panic else Found(v)
    {
      if key !in store.data {
        return Found(None);
      }
      var v := codec.decode(store.data[key]);
      return if v.None? then Panic else Found(v);
    }

    method Set(store: ContractStore, v: V)
      modifies store
      ensures store.data == old(store.data)[key := codec.encode(v)]
    {
      store.data := store.data[key := codec.encode(v)];
    }

    method Clear(store: ContractStore)
      modifies store
      ensures store.data == old(store.data) - {key}
    {
      store.data := store.data - {key};
    }
  }

  /** A map kept in a store. Every operation on a key that has no path panics. */
  class StorageMap<V(!new)> {
    const id: Bytes
    const t: KeyType
    const codec: Codec<V>

    constructor (id: Bytes, t: KeyType, codec: Codec<V>)
      ensures this.id == id && this.t == t && this.codec == codec
    {
      this.id, this.t, this.codec := id, t, codec;
    }

    method KeyPath(k: Key) returns (p: Option<Bytes>)
      requires HasType(k, t)
      ensures p == if Encodable(k, t) then Some(Path(id, k, t)) else None
    {
      var c := Components(k, t);
      p := EncodePath(id, c[..|c| - 1], c[|c| - 1]);
    }

    /** Where the store represents a mathematical map, a lookup is a lookup in that map. */
    method Get(store: ContractStore, k: Key) returns (r: Fetched<V>)
      requires HasType(k, t)
      ensures !Encodable(k, t) ==> r == Panic
      ensures forall m | Represents(store.data, id, t, codec, m) && Lossless(codec) && Encodable(k, t) ::
                r == Found(Lookup(m, k))
    {
      var p := KeyPath(k);
      if p.None? {
        return Panic;
      }
      var cell := new Cell(p.value, codec);
      r := cell.Get(store);
    }

    /** The represented map gains the pair, and nothing outside the identifier changes. */
    method Insert(store: ContractStore, k: Key, v: V) returns (ok: bool)
      requires HasType(k, t)
      modifies store
      ensures ok == Encodable(k, t)
      ensures forall m | old(Represents(store.data, id, t, codec, m)) ::
                Represents(store.data, id, t, codec, if ok then m[k := v] else m)
      ensures forall p | !(id <= p) :: Lookup(store.data, p) == old(Lookup(store.data, p))
    {
      var p := KeyPath(k);
      ok := p.Some?;
      if ok {
        PathIsUnder(id, k, t);
        forall m | Represents(store.data, id, t, codec, m)
          ensures Represents(store.data[p.value := codec.encode(v)], id, t, codec, m[k := v])
        {
          InsertRefines(store.data, id, t, codec, m, k, v);
        }
        var cell := new Cell(p.value, codec);
        cell.Set(store, v);
      }
    }

    /** The represented map loses the key, and nothing outside the identifier changes. */
    method Remove(store: ContractStore, k: Key) returns (ok: bool)
      requires HasType(k, t)
      modifies store
      ensures ok == Encodable(k, t)
      ensures forall m | old(Represents(store.data, id, t, codec, m)) ::
                Represents(store.data, id, t, codec, if ok then m - {k} else m)
      ensures forall p | !(id <= p) :: Lookup(store.data, p) == old(Lookup(store.data, p))
    {
      var p := KeyPath(k);
      ok := p.Some?;
      if ok {
        PathIsUnder(id, k, t);
        forall m | Represents(store.data, id, t, codec, m)
          ensures Represents(store.data - {p.value}, id, t, codec, m - {k})
        {
          RemoveRefines(store.data, id, t, codec, m, k);
        }
        var cell := new Cell(p.value, codec);
        cell.Clear(store);
      }
    }
  }

  /** A map of a contract. */
  datatype Decl = Decl(id: Bytes, t: KeyType)

  /** An operation of a contract on one of its maps. */
  datatype Op<V> = Put(index: nat, key: Key, value: V) | Delete(index: nat, key: Key)

  predicate Possible<V>(decls: seq<Decl>, op: Op<V>) {
    op.index < |decls| && HasType(op.key, decls[op.index].t) && Encodable(op.key, decls[op.index].t)
  }

  predicate AllPossible<V>(decls: seq<Decl>, ops: seq<Op<V>>) {
    forall i | 0 <= i < |ops| :: Possible(decls, ops[i])
  }

  /** The store after a run of a contract. */
  function Stored<V>(decls: seq<Decl>, codec: Codec<V>, ops: seq<Op<V>>): map<Bytes, Bytes>
    requires AllPossible(decls, ops)
  {
    if ops == [] then map[]
    else
      var data, op := Stored(decls, codec, ops[..|ops| - 1]), ops[|ops| - 1];
      var path := Path(decls[op.index].id, op.key, decls[op.index].t);
      match op
      case Put(_, _, v) => data[path := codec.encode(v)]
      case Delete(_, _) => data - {path}
  }

  /** The same run on a mathematical map of its own. */
  function Mapped<V>(index: nat, ops: seq<Op<V>>): map<Key, V> {
    if ops == [] then map[]
    else
      var m, op := Mapped(index, ops[..|ops| - 1]), ops[|ops| - 1];
      if op.index != index then m
      else match op
        case Put(_, k, v) => m[k := v]
        case Delete(_, k) => m - {k}
  }

  predicate AllApart(decls: seq<Decl>) {
    forall i, j | 0 <= i < j < |decls| :: Apart(decls[i].id, decls[j].id)
  }

  /** Every run over maps whose identifiers are apart treats each of them as a map of its own. */
  lemma {:induction false} RunsRefineMaps<V>(decls: seq<Decl>, codec: Codec<V>, ops: seq<Op<V>>, i: nat)
    requires AllApart(decls) && AllPossible(decls, ops) && i < |decls|
    ensures Represents(Stored(decls, codec, ops), decls[i].id, decls[i].t, codec, Mapped(i, ops))
  {
    if ops != [] {
      hide Represents, HasType, Encodable, Path;
      var init, op := ops[..|ops| - 1], ops[|ops| - 1];
      RunsRefineMaps(decls, codec, init, i);
      var data, id, t := Stored(decls, codec, init), decls[op.index].id, decls[op.index].t;
      assert Possible(decls, op);
      PathIsUnder(id, op.key, t);
      if op.index != i {
        OthersAreKept(data, Stored(decls, codec, ops), id, decls[i].id, decls[i].t, codec, Mapped(i, init));
      } else if op.Put? {
        InsertRefines(data, id, t, codec, Mapped(i, init), op.key, op.value);
      } else {
        RemoveRefines(data, id, t, codec, Mapped(i, init), op.key);
      }
    }
  }
}
