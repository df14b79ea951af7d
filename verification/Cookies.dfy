/**
 The chunked session cookie (session.go) against a browser's cookie jar.

 A value that fits goes into the base cookie. A larger one is split over
 base_1 .. base_N and the base cookie holds the header "chunked:N". Nothing deletes
 the chunks of an earlier, larger session, so a jar carries stale leftovers.
 */
module Cookies {
  import opened Wrappers
  import opened Decimal

  const MAX_VALUE_BYTES := 3500
  const MAX_CHUNKS := 8
  const CHUNK_PREFIX := "chunked:"

  /** What a browser sends back: one value per cookie name. */
  type Jar = map<string, string>

  /** What readSessionCookie hands to decryption, or why it stops before it. */
  datatype Read = NoSession | Invalid | Encoded(value: string)

  // ----- chunking -----

  function Join(pieces: seq<string>): string {
    if |pieces| == 0 then "" else pieces[0] + Join(pieces[1..])
  }

  lemma {:induction false} JoinSnoc(pieces: seq<string>, last: string)
    ensures Join(pieces + [last]) == Join(pieces) + last
  {
    if |pieces| == 0 {
      assert pieces + [last] == [last];
      assert Join([last]) == last + Join([]);
    } else {
      JoinSnoc(pieces[1..], last);
      assert (pieces + [last])[1..] == pieces[1..] + [last];
    }
  }

  /** The ceiling quotient. */
  function CeilDiv(a: nat, b: nat): (q: nat)
    requires b > 0
    ensures (q - 1) * b < a <= q * b
  {
    if a == 0 then 0 else if a <= b then 1 else CeilDiv(a - b, b) + 1
  }

  /** The pieces of `s`: exact, full-sized except the last, and never an empty list. */
  ghost predicate ExactChunks(s: string, size: nat, pieces: seq<string>)
    requires size > 0
  {
    && Join(pieces) == s
    && |pieces| == (if |s| == 0 then 1 else CeilDiv(|s|, size))
    && (forall i :: 0 <= i < |pieces| - 1 ==> |pieces[i]| == size)
    && |pieces[|pieces| - 1]| <= size
  }

  function Chunks(s: string, size: nat): (pieces: seq<string>)
    requires size > 0
    ensures |pieces| > 0
  {
    if |s| <= size then [s] else [s[..size]] + Chunks(s[size..], size)
  }

  lemma {:induction false} ChunksExact(s: string, size: nat)
    requires size > 0
    ensures ExactChunks(s, size, Chunks(s, size))
  {
    if |s| <= size {
      assert Join([s]) == s + Join([]);
    } else {
      var rest := Chunks(s[size..], size);
      ChunksExact(s[size..], size);
      assert Chunks(s, size)[1..] == rest;
      assert s == s[..size] + s[size..];
    }
  }

  /** chunkString: cut `size` bytes off the front until what is left fits. */
  method ChunkString(text: string, size: nat) returns (out: seq<string>)
    requires size > 0
    ensures out == Chunks(text, size)
    ensures ExactChunks(text, size, out)
  {
    var s := text;
    out := [];
    while |s| > size
      invariant out + Chunks(s, size) == Chunks(text, size)
      decreases |s|
    {
      ghost var before := out;
      out := out + [s[..size]];
      assert before + ([s[..size]] + Chunks(s[size..], size)) == out + Chunks(s[size..], size);
      s := s[size..];
    }
    out := out + [s];
    ChunksExact(text, size);
  }

  // ----- names -----

  function ChunkName(base: string, i: nat): string {
    base + "_" + FormatInt(i)
  }

  lemma ChunkNamesDistinct(base: string, i: nat, j: nat)
    ensures ChunkName(base, i) != base
    ensures ChunkName(base, i) == ChunkName(base, j) ==> i == j
  {
    assert |ChunkName(base, i)| > |base|;
    if ChunkName(base, i) == ChunkName(base, j) {
      assert ChunkName(base, i)[|base| + 1..] == FormatInt(i);
      assert ChunkName(base, j)[|base| + 1..] == FormatInt(j);
      FormatIntInjective(i, j);
    }
  }

  // ----- reading -----

  /** Joins chunks i..n, or fails when one is missing or larger than the writer makes. */
  function Reassemble(jar: Jar, base: string, i: nat, n: nat): Option<string>
    decreases n + 1 - i
  {
    if i > n then Some("")
    else if ChunkName(base, i) !in jar || |jar[ChunkName(base, i)]| > MAX_VALUE_BYTES then None
    else
      match Reassemble(jar, base, i + 1, n)
      case None => None
      case Some(rest) => Some(jar[ChunkName(base, i)] + rest)
  }

  function ReadEncoded(jar: Jar, base: string): Read {
    if base !in jar then NoSession
    else if CHUNK_PREFIX <= jar[base] then
      match ParseInt(jar[base][|CHUNK_PREFIX|..])
      case None => Invalid
      case Some(n) =>
        if n < 1 || n > MAX_CHUNKS then Invalid
        else
          match Reassemble(jar, base, 1, n)
          case None => Invalid
          case Some(value) => Encoded(value)
    else Encoded(jar[base])
  }

  // ----- writing -----

  predicate Fits(encrypted: string) {
    |encrypted| <= MAX_VALUE_BYTES || |Chunks(encrypted, MAX_VALUE_BYTES)| <= MAX_CHUNKS
  }

  /** Sets base_(i+1), base_(i+2), ... to the pieces from index i on. */
  function PutChunks(jar: Jar, base: string, pieces: seq<string>, i: nat): Jar
    requires i <= |pieces|
    decreases |pieces| - i
  {
    if i == |pieces| then jar
    else PutChunks(jar[ChunkName(base, i + 1) := pieces[i]], base, pieces, i + 1)
  }

  function WriteEncoded(jar: Jar, base: string, encrypted: string): Jar {
    if |encrypted| <= MAX_VALUE_BYTES then jar[base := encrypted]
    else
      var pieces := Chunks(encrypted, MAX_VALUE_BYTES);
      if |pieces| > MAX_CHUNKS then jar
      else PutChunks(jar[base := CHUNK_PREFIX + FormatInt(|pieces|)], base, pieces, 0)
  }

  /** The base cookie and the first `count` chunk cookies. */
  function SessionNames(base: string, count: nat): set<string> {
    if count == 0 then {base} else SessionNames(base, count - 1) + {ChunkName(base, count)}
  }

  function ClearSession(jar: Jar, base: string): Jar {
    jar - SessionNames(base, MAX_CHUNKS)
  }

  lemma {:induction false} SessionNamesHoldBase(base: string, count: nat)
    ensures base in SessionNames(base, count)
  {
    if count > 0 {
      SessionNamesHoldBase(base, count - 1);
    }
  }

  predicate IsChunkOf(base: string, count: nat, name: string) {
    exists i :: 1 <= i <= count && name == ChunkName(base, i)
  }

  lemma IsChunkOfGrows(base: string, count: nat, name: string)
    requires count > 0
    ensures IsChunkOf(base, count, name) <==> IsChunkOf(base, count - 1, name) || name == ChunkName(base, count)
  {
    if IsChunkOf(base, count, name) {
      var i :| 1 <= i <= count && name == ChunkName(base, i);
      assert i <= count - 1 || i == count;
    }
  }

  lemma {:induction false} SessionNamesExact(base: string, count: nat, name: string)
    ensures name in SessionNames(base, count) <==> name == base || IsChunkOf(base, count, name)
  {
    if count > 0 {
      IsChunkOfGrows(base, count, name);
      SessionNamesExact(base, count - 1, name);
    }
  }

  /**
   Whatever chunks an accepted write puts down, a later clear takes away again, with the base cookie and
   nothing else.
   */
  lemma ClearUndoesEveryWrite(jar: Jar, base: string, encrypted: string)
    ensures ClearSession(WriteEncoded(jar, base, encrypted), base) == ClearSession(jar, base)
  {
    var after := WriteEncoded(jar, base, encrypted);
    var pieces := Chunks(encrypted, MAX_VALUE_BYTES);
    forall name | name !in SessionNames(base, MAX_CHUNKS)
      ensures (name in after <==> name in jar) && (name in jar ==> after[name] == jar[name])
    {
      SessionNamesExact(base, MAX_CHUNKS, name);
      if |pieces| <= MAX_CHUNKS {
        PutChunksElsewhere(jar[base := CHUNK_PREFIX + FormatInt(|pieces|)], base, pieces, 0, name);
      }
    }
    assert ClearSession(after, base).Keys == ClearSession(jar, base).Keys;
  }

  /** The browser's jar together with the three operations that touch the session in it. */
  class CookieJar {
    var cookies: Jar

    constructor (cookies: Jar)
      ensures this.cookies == cookies
    {
      this.cookies := cookies;
    }

    /** setSessionCookie after encryption; false is the refused over-size write. */
    method SetSessionCookie(base: string, encrypted: string) returns (ok: bool)
      modifies this
      ensures cookies == WriteEncoded(old(cookies), base, encrypted)
      ensures ok == Fits(encrypted)
      ensures !ok ==> cookies == old(cookies)
    {
      if |encrypted| <= MAX_VALUE_BYTES {
        cookies := cookies[base := encrypted];
        return true;
      }
      var chunks := ChunkString(encrypted, MAX_VALUE_BYTES);
      if |chunks| > MAX_CHUNKS {
        return false;
      }
      cookies := cookies[base := CHUNK_PREFIX + FormatInt(|chunks|)];
      for i := 0 to |chunks|
        invariant PutChunks(cookies, base, chunks, i) == WriteEncoded(old(cookies), base, encrypted)
      {
        cookies := cookies[ChunkName(base, i + 1) := chunks[i]];
      }
      return true;
    }

    /** readSessionCookie up to decryption. */
    method ReadSessionCookie(base: string) returns (r: Read)
      ensures r == ReadEncoded(cookies, base)
    {
      if base !in cookies {
        return NoSession;
      }
      var encoded := cookies[base];
      if CHUNK_PREFIX <= encoded {
        var parsed := ParseInt(encoded[|CHUNK_PREFIX|..]);
        if parsed.None? || parsed.value < 1 || parsed.value > MAX_CHUNKS {
          return Invalid;
        }
        var n: nat := parsed.value;
        var buffer := "";
        var i := 1;
        assert forall rest: string :: "" + rest == rest;
        while i <= n
          invariant 1 <= i <= n + 1
          invariant Reassemble(cookies, base, 1, n) ==
                    match Reassemble(cookies, base, i, n)
                    case None => None
                    case Some(rest) => Some(buffer + rest)
        {
          if ChunkName(base, i) !in cookies || |cookies[ChunkName(base, i)]| > MAX_VALUE_BYTES {
            return Invalid;
          }
          ghost var before := buffer;
          buffer := buffer + cookies[ChunkName(base, i)];
          assert forall rest: string ::
              before + (cookies[ChunkName(base, i)] + rest) == buffer + rest;
          i := i + 1;
        }
        assert buffer + "" == buffer;
        encoded := buffer;
      }
      return Encoded(encoded);
    }

    /** clearSessionCookie: the base cookie and every chunk a session can have. */
    method ClearSessionCookie(base: string)
      modifies this
      ensures cookies == ClearSession(old(cookies), base)
    {
      cookies := cookies - {base};
      for i := 1 to MAX_CHUNKS + 1
        invariant cookies == old(cookies) - SessionNames(base, i - 1)
      {
        cookies := cookies - {ChunkName(base, i)};
      }
    }
  }

  // ----- the jar is a one-cell store -----

  /** base64url (section 5 of RFC 4648) has no ':' in its alphabet. */
  predicate ColonFree(s: string) {
    ':' !in s
  }

  lemma ColonFreeIsNoHeader(s: string)
    requires ColonFree(s)
    ensures !(CHUNK_PREFIX <= s)
  {
    assert CHUNK_PREFIX[7] == ':';
    if |s| >= |CHUNK_PREFIX| {
      assert s[7] in s;
    }
  }

  /** Chunks from+1 .. |pieces| sit in the jar under their own names. */
  ghost predicate HoldsChunks(jar: Jar, base: string, pieces: seq<string>, from: nat) {
    forall m: nat :: from < m <= |pieces| ==> ChunkName(base, m) in jar && jar[ChunkName(base, m)] == pieces[m - 1]
  }

  /** Writing the chunks touches no other name. */
  lemma {:induction false} PutChunksElsewhere(jar: Jar, base: string, pieces: seq<string>, i: nat, name: string)
    requires i <= |pieces|
    requires forall m: nat :: i < m <= |pieces| ==> name != ChunkName(base, m)
    ensures var after := PutChunks(jar, base, pieces, i);
            (name in after <==> name in jar) && (name in jar ==> after[name] == jar[name])
    decreases |pieces| - i
  {
    if i < |pieces| {
      assert name != ChunkName(base, i + 1);
      PutChunksElsewhere(jar[ChunkName(base, i + 1) := pieces[i]], base, pieces, i + 1, name);
    }
  }

  lemma {:induction false} PutChunksHolds(jar: Jar, base: string, pieces: seq<string>, i: nat)
    requires i <= |pieces|
    ensures HoldsChunks(PutChunks(jar, base, pieces, i), base, pieces, i)
    decreases |pieces| - i
  {
    if i < |pieces| {
      var mine := ChunkName(base, i + 1);
      var next := jar[mine := pieces[i]];
      PutChunksHolds(next, base, pieces, i + 1);
      forall m: nat | i + 1 < m <= |pieces| ensures mine != ChunkName(base, m) {
        ChunkNamesDistinct(base, m, i + 1);
      }
      PutChunksElsewhere(next, base, pieces, i + 1, mine);
    }
  }

  lemma {:induction false} ReassembleJoins(jar: Jar, base: string, pieces: seq<string>, i: nat)
    requires i <= |pieces|
    requires forall j :: 0 <= j < |pieces| ==> |pieces[j]| <= MAX_VALUE_BYTES
    requires HoldsChunks(jar, base, pieces, 0)
    ensures Reassemble(jar, base, i + 1, |pieces|) == Some(Join(pieces[i..]))
    decreases |pieces| - i
  {
    if i < |pieces| {
      ReassembleJoins(jar, base, pieces, i + 1);
      assert jar[ChunkName(base, i + 1)] == pieces[i];
      assert pieces[i..][1..] == pieces[i + 1..];
    }
  }

  /** What a chunked write leaves: the header in the base cookie and every piece under its name. */
  lemma ChunkedWriteLeaves(jar: Jar, base: string, encrypted: string)
    requires |encrypted| > MAX_VALUE_BYTES && Fits(encrypted)
    ensures var after, pieces := WriteEncoded(jar, base, encrypted), Chunks(encrypted, MAX_VALUE_BYTES);
            && base in after && after[base] == CHUNK_PREFIX + FormatInt(|pieces|)
            && HoldsChunks(after, base, pieces, 0)
  {
    var pieces := Chunks(encrypted, MAX_VALUE_BYTES);
    var put := jar[base := CHUNK_PREFIX + FormatInt(|pieces|)];
    forall m: nat ensures base != ChunkName(base, m) {
      ChunkNamesDistinct(base, m, m);
    }
    PutChunksElsewhere(put, base, pieces, 0, base);
    PutChunksHolds(put, base, pieces, 0);
  }

  /** One write is read back, whatever else was lying in the jar. */
  lemma WriteThenRead(jar: Jar, base: string, encrypted: string)
    requires ColonFree(encrypted) && Fits(encrypted)
    ensures ReadEncoded(WriteEncoded(jar, base, encrypted), base) == Encoded(encrypted)
  {
    if |encrypted| <= MAX_VALUE_BYTES {
      ColonFreeIsNoHeader(encrypted);
    } else {
      var after, pieces := WriteEncoded(jar, base, encrypted), Chunks(encrypted, MAX_VALUE_BYTES);
      ChunkedWriteLeaves(jar, base, encrypted);
      ChunksExact(encrypted, MAX_VALUE_BYTES);
      assert after[base][|CHUNK_PREFIX|..] == FormatInt(|pieces|);
      ParseFormat(|pieces|);
      ReassembleJoins(after, base, pieces, 0);
      assert pieces[0..] == pieces;
    }
  }

  /**
   What a write looks like to the browser: a value of up to 3500 bytes sits in the base cookie, a larger one
   leaves there the header that names its number of chunks, and no cookie it sets is larger than 3500 bytes.
   */
  lemma WrittenCookiesAreSmall(jar: Jar, base: string, encrypted: string, name: string)
    requires Fits(encrypted)
    ensures var after := WriteEncoded(jar, base, encrypted);
            && base in after
            && after[base] == (if |encrypted| <= 3500 then encrypted
               else "chunked:" + FormatInt(CeilDiv(|encrypted|, 3500)))
            && (name in after && !(name in jar && jar[name] == after[name]) ==> |after[name]| <= 3500)
  {
    if |encrypted| > MAX_VALUE_BYTES {
      var pieces := Chunks(encrypted, MAX_VALUE_BYTES);
      var n := |pieces|;
      ChunkedWriteLeaves(jar, base, encrypted);
      ChunksExact(encrypted, MAX_VALUE_BYTES);
      FormatNatLength(n, 1);
      if forall m: nat :: 0 < m <= n ==> name != ChunkName(base, m) {
        PutChunksElsewhere(jar[base := CHUNK_PREFIX + FormatInt(n)], base, pieces, 0, name);
      }
    }
  }

  /** Piece `i` is the text from i * size on. */
  lemma {:induction false} ChunkIsSlice(s: string, size: nat, i: nat)
    requires size > 0 && i < |Chunks(s, size)|
    ensures i * size <= |s|
    ensures Chunks(s, size)[i] == if (i + 1) * size < |s| then s[i * size..(i + 1) * size] else s[i * size..]
  {
    if i > 0 {
      var t := s[size..];
      ChunkIsSlice(t, size, i - 1);
      assert (i - 1) * size + size == i * size && i * size + size == (i + 1) * size;
      assert i * size < |t| ==> t[(i - 1) * size..i * size] == s[i * size..(i + 1) * size];
      assert t[(i - 1) * size..] == s[i * size..];
    } else if |s| > size {
      assert (i + 1) * size == size;
    }
  }

  /** Chunk `m` of a chunked write sits under the base name, an underscore and m. */
  lemma ChunksSitUnderTheirNames(jar: Jar, base: string, encrypted: string, m: nat)
    requires 3500 < |encrypted| <= 28_000 && 1 <= m <= CeilDiv(|encrypted|, 3500)
    ensures (m - 1) * 3500 <= |encrypted|
    ensures var after, name := WriteEncoded(jar, base, encrypted), base + "_" + FormatInt(m);
            && name in after
            && after[name] == if m * 3500 < |encrypted| then encrypted[(m - 1) * 3500..m * 3500]
                              else encrypted[(m - 1) * 3500..]
  {
    var pieces := Chunks(encrypted, MAX_VALUE_BYTES);
    RefusedWriteLimit(jar, base, encrypted);
    ChunksExact(encrypted, MAX_VALUE_BYTES);
    ChunkedWriteLeaves(jar, base, encrypted);
    ChunkIsSlice(encrypted, MAX_VALUE_BYTES, m - 1);
    assert ChunkName(base, m) in WriteEncoded(jar, base, encrypted);
  }

  datatype JarOp = Write(encrypted: string) | Clear

  function ApplyToJar(jar: Jar, base: string, op: JarOp): Jar {
    match op
    case Write(encrypted) => WriteEncoded(jar, base, encrypted)
    case Clear => ClearSession(jar, base)
  }

  function RunJar(jar: Jar, base: string, ops: seq<JarOp>): Jar
    decreases |ops|
  {
    if ops == [] then jar else RunJar(ApplyToJar(jar, base, ops[0]), base, ops[1..])
  }

  /** The simple store: the last write that fits, nothing after a clear. */
  function RunCell(cell: Read, ops: seq<JarOp>): Read
    decreases |ops|
  {
    if |ops| == 0 then cell
    else
      var next := match ops[0]
                  case Write(encrypted) => if Fits(encrypted) then Encoded(encrypted) else cell
                  case Clear => NoSession;
      RunCell(next, ops[1..])
  }

  /** From any jar at all, stale and hostile ones included, the cookies behave as one cell. */
  lemma {:induction false} JarRefinesCell(jar: Jar, base: string, ops: seq<JarOp>)
    requires forall i :: 0 <= i < |ops| && ops[i].Write? ==> ColonFree(ops[i].encrypted)
    ensures ReadEncoded(RunJar(jar, base, ops), base) == RunCell(ReadEncoded(jar, base), ops)
    decreases |ops|
  {
    if |ops| > 0 {
      var next := ApplyToJar(jar, base, ops[0]);
      if ops[0].Write? && Fits(ops[0].encrypted) {
        WriteThenRead(jar, base, ops[0].encrypted);
      }
      SessionNamesHoldBase(base, MAX_CHUNKS);
      JarRefinesCell(next, base, ops[1..]);
    }
  }

  /** A write needing more than eight chunks, and only such a write, changes no cookie and is refused. */
  lemma RefusedWriteLimit(jar: Jar, base: string, encrypted: string)
    ensures Fits(encrypted) <==> |encrypted| <= 28_000
    ensures !Fits(encrypted) ==> WriteEncoded(jar, base, encrypted) == jar
  {
    ChunksExact(encrypted, MAX_VALUE_BYTES);
    if |encrypted| > MAX_VALUE_BYTES {
      var q := CeilDiv(|encrypted|, MAX_VALUE_BYTES);
      assert q <= MAX_CHUNKS <==> |encrypted| <= MAX_CHUNKS * MAX_VALUE_BYTES;
    }
  }

  /** The values of chunks i..n, all of which must be there. */
  function StoredChunks(jar: Jar, base: string, i: nat, n: nat): seq<string>
    requires forall m: nat :: i <= m <= n ==> ChunkName(base, m) in jar
    decreases n + 1 - i
  {
    if i > n then [] else [jar[ChunkName(base, i)]] + StoredChunks(jar, base, i + 1, n)
  }

  ghost predicate Complete(jar: Jar, base: string, i: nat, n: nat) {
    forall m: nat :: i <= m <= n ==> ChunkName(base, m) in jar && |jar[ChunkName(base, m)]| <= MAX_VALUE_BYTES
  }

  lemma {:induction false} ReassembleExact(jar: Jar, base: string, i: nat, n: nat)
    requires i <= n + 1
    ensures Reassemble(jar, base, i, n).Some? <==> Complete(jar, base, i, n)
    ensures Complete(jar, base, i, n) ==>
              && Reassemble(jar, base, i, n) == Some(Join(StoredChunks(jar, base, i, n)))
              && |Reassemble(jar, base, i, n).value| <= (n + 1 - i) * MAX_VALUE_BYTES
    decreases n + 1 - i
  {
    if i <= n {
      ReassembleExact(jar, base, i + 1, n);
      if Complete(jar, base, i, n) {
        assert Complete(jar, base, i + 1, n);
        assert StoredChunks(jar, base, i, n)[1..] == StoredChunks(jar, base, i + 1, n);
      } else if ChunkName(base, i) in jar && |jar[ChunkName(base, i)]| <= MAX_VALUE_BYTES {
        assert !Complete(jar, base, i + 1, n);
      }
    }
  }

  /**
   Every hostile jar: on a chunked header the reader answers exactly when the header announces
   1..8 chunks and every announced chunk is there and legal; the answer is then the join of that
   complete set, at most 8 * 3500 bytes. In every other case it rejects; a partial set is never joined.
   */
  lemma ReaderIsTotal(jar: Jar, base: string)
    requires base in jar && CHUNK_PREFIX <= jar[base]
    ensures var header := ParseInt(jar[base][|CHUNK_PREFIX|..]);
            if header.Some? && 1 <= header.value <= MAX_CHUNKS && Complete(jar, base, 1, header.value) then
              && ReadEncoded(jar, base) == Encoded(Join(StoredChunks(jar, base, 1, header.value)))
              && |ReadEncoded(jar, base).value| <= 8 * 3500
            else
              ReadEncoded(jar, base) == Invalid
  {
    var header := ParseInt(jar[base][|CHUNK_PREFIX|..]);
    if header.Some? && 1 <= header.value <= MAX_CHUNKS {
      ReassembleExact(jar, base, 1, header.value);
    }
  }
}
