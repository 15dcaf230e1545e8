/**
 * The content-addressed cache of generated speech. A text's file is named by
 * the lowercase hexadecimal SHA-256 digest of its UTF-8 bytes followed by
 * ".mp3"; the cache directory is a map from file names to file contents. The
 * digest itself is a parameter of the service (any function yielding 32
 * bytes), and each file-system failure the source catches is an explicit
 * argument of the operation that meets it.
 */
module AudioCache {
  import opened Wrappers

  newtype byte = x: int | 0 <= x < 256

  /** A SHA-256 digest: 32 bytes. */
  type Digest = s: seq<byte> | |s| == 32 witness seq(32, _ => 0 as byte)

  // ---------------------------------------------------------------------------
  // UTF-8 (`Data(text.utf8)`)
  // ---------------------------------------------------------------------------

  /** The UTF-8 bytes of one Unicode scalar value. */
  function Utf8Char(c: char): (r: seq<byte>)
    ensures 1 <= |r| <= 4
    ensures (c as int < 0x80) <==> |r| == 1
    ensures |r| == 1 ==> r[0] as int == c as int
    ensures |r| > 1 ==> forall i :: 1 <= i < |r| ==> 0x80 <= r[i] < 0xC0
  {
    var n := c as int;
    if n < 0x80 then [n as byte]
    else if n < 0x800 then [(0xC0 + n / 64) as byte, (0x80 + n % 64) as byte]
    else if n < 0x1_0000 then [(0xE0 + n / 4096) as byte, (0x80 + n / 64 % 64) as byte, (0x80 + n % 64) as byte]
    else [(0xF0 + n / 262144) as byte, (0x80 + n / 4096 % 64) as byte, (0x80 + n / 64 % 64) as byte, (0x80 + n % 64) as byte]
  }

  /** The UTF-8 encoding of a text, character by character. */
  function Utf8(s: string): (r: seq<byte>)
    ensures |s| <= |r| <= 4 * |s|
  {
    if s == [] then [] else Utf8Char(s[0]) + Utf8(s[1..])
  }

  /** How many bytes the sequence a leading byte starts takes up; 0 for a byte that cannot lead. */
  function SequenceLength(lead: byte): nat {
    if lead < 0x80 then 1
    else if 0xC0 <= lead < 0xE0 then 2
    else if 0xE0 <= lead < 0xF0 then 3
    else if 0xF0 <= lead < 0xF8 then 4
    else 0
  }

  /** The code point a complete sequence of `SequenceLength(b[0])` bytes denotes. */
  function CodePoint(b: seq<byte>): int
    requires 1 <= |b| <= 4
  {
    if |b| == 1 then b[0] as int
    else if |b| == 2 then (b[0] as int - 0xC0) * 64 + (b[1] as int - 0x80)
    else if |b| == 3 then (b[0] as int - 0xE0) * 4096 + (b[1] as int - 0x80) * 64 + (b[2] as int - 0x80)
    else (b[0] as int - 0xF0) * 262144 + (b[1] as int - 0x80) * 4096 + (b[2] as int - 0x80) * 64 + (b[3] as int - 0x80)
  }

  predicate IsScalar(n: int) {
    0 <= n < 0xD800 || 0xE000 <= n < 0x11_0000
  }

  /** A UTF-8 decoder: None on a malformed sequence. */
  function DecodeUtf8(b: seq<byte>): Option<string>
    decreases |b|
  {
    if b == [] then Some([])
    else
      var len := SequenceLength(b[0]);
      if len == 0 || |b| < len || !IsScalar(CodePoint(b[..len])) then None
      else
        match DecodeUtf8(b[len..])
        case None => None
        case Some(rest) => Some([CodePoint(b[..len]) as char] + rest)
  }

  lemma Utf8CharDecodes(c: char, rest: seq<byte>)
    ensures var b := Utf8Char(c) + rest;
      SequenceLength(b[0]) == |Utf8Char(c)| && b[..|Utf8Char(c)|] == Utf8Char(c) && CodePoint(Utf8Char(c)) == c as int
  {
    var r := Utf8Char(c);
    Utf8CharCodePoint(c);
    assert (r + rest)[0] == r[0];
    assert (r + rest)[..|r|] == r;
  }

  /** One character's bytes: the lead byte announces their number, and they spell the code point. */
  lemma Utf8CharCodePoint(c: char)
    ensures SequenceLength(Utf8Char(c)[0]) == |Utf8Char(c)| && CodePoint(Utf8Char(c)) == c as int
  {
    var n := c as int;
    if n < 0x80 {
    } else if n < 0x800 {
      TwoBytes(n);
    } else if n < 0x1_0000 {
      ThreeBytes(n);
    } else {
      FourBytes(n);
    }
  }

  lemma TwoBytes(n: int)
    requires 0x80 <= n < 0x800
    ensures 0xC0 <= 0xC0 + n / 64 < 0xE0
    ensures (0xC0 + n / 64 - 0xC0) * 64 + (0x80 + n % 64 - 0x80) == n
  {
  }

  lemma ThreeBytes(n: int)
    requires 0x800 <= n < 0x1_0000
    ensures 0xE0 <= 0xE0 + n / 4096 < 0xF0
    ensures (0xE0 + n / 4096 - 0xE0) * 4096 + (0x80 + n / 64 % 64 - 0x80) * 64 + (0x80 + n % 64 - 0x80) == n
  {
    assert n / 64 == (n / 4096) * 64 + n / 64 % 64;
  }

  lemma FourBytes(n: int)
    requires 0x1_0000 <= n < 0x11_0000
    ensures 0xF0 <= 0xF0 + n / 262144 < 0xF8
    ensures (0xF0 + n / 262144 - 0xF0) * 262144 + (0x80 + n / 4096 % 64 - 0x80) * 4096
      + (0x80 + n / 64 % 64 - 0x80) * 64 + (0x80 + n % 64 - 0x80) == n
  {
    assert n / 4096 == (n / 262144) * 64 + n / 4096 % 64;
    assert n / 64 == (n / 4096) * 64 + n / 64 % 64;
  }

  /** Decoding a text's UTF-8 bytes gives the text back. */
  lemma {:induction false} Utf8RoundTrip(s: string)
    ensures DecodeUtf8(Utf8(s)) == Some(s)
  {
    if s != [] {
      var r := Utf8Char(s[0]);
      Utf8CharDecodes(s[0], Utf8(s[1..]));
      assert (r + Utf8(s[1..]))[|r|..] == Utf8(s[1..]);
      assert IsScalar(s[0] as int);
      Utf8RoundTrip(s[1..]);
      assert [s[0]] + s[1..] == s;
    }
  }

  /** Different texts have different UTF-8 bytes. */
  lemma Utf8Injective(s: string, t: string)
    requires Utf8(s) == Utf8(t)
    ensures s == t
  {
    Utf8RoundTrip(s);
    Utf8RoundTrip(t);
  }

  // ---------------------------------------------------------------------------
  // Hexadecimal (`String(format: "%02x", byte)`, joined)
  // ---------------------------------------------------------------------------

  predicate IsLowerHexDigit(c: char) {
    '0' <= c <= '9' || 'a' <= c <= 'f'
  }

  function HexDigit(n: nat): (c: char)
    requires n < 16
    ensures IsLowerHexDigit(c)
  {
    if n < 10 then ('0' as int + n) as char else ('a' as int + n - 10) as char
  }

  /** The value of a lowercase hexadecimal digit. */
  function HexValue(c: char): (n: nat)
    requires IsLowerHexDigit(c)
    ensures n < 16 && HexDigit(n) == c
  {
    if c <= '9' then c as int - '0' as int else c as int - 'a' as int + 10
  }

  /** `%02x`: exactly two lowercase digits, the high nibble first. */
  function ByteHex(b: byte): (r: string)
    ensures |r| == 2 && IsLowerHexDigit(r[0]) && IsLowerHexDigit(r[1])
    ensures HexValue(r[0]) * 16 + HexValue(r[1]) == b as int
  {
    [HexDigit(b as int / 16), HexDigit(b as int % 16)]
  }

  /** The digest as text: the bytes' `%02x` forms joined in order. */
  function Hex(bytes: seq<byte>): (r: string)
    ensures |r| == 2 * |bytes|
    ensures forall i :: 0 <= i < |r| ==> IsLowerHexDigit(r[i])
  {
    if bytes == [] then [] else ByteHex(bytes[0]) + Hex(bytes[1..])
  }

  /** Reads pairs of lowercase hexadecimal digits back into bytes. */
  function ParseHex(s: string): Option<seq<byte>>
    decreases |s|
  {
    if s == [] then Some([])
    else if |s| < 2 || !IsLowerHexDigit(s[0]) || !IsLowerHexDigit(s[1]) then None
    else
      match ParseHex(s[2..])
      case None => None
      case Some(rest) => Some([(HexValue(s[0]) * 16 + HexValue(s[1])) as byte] + rest)
  }

  lemma {:induction false} HexRoundTrip(bytes: seq<byte>)
    ensures ParseHex(Hex(bytes)) == Some(bytes)
  {
    if bytes != [] {
      var h := ByteHex(bytes[0]);
      assert Hex(bytes)[2..] == Hex(bytes[1..]);
      assert Hex(bytes)[0] == h[0] && Hex(bytes)[1] == h[1];
      HexRoundTrip(bytes[1..]);
      assert [bytes[0]] + bytes[1..] == bytes;
    }
  }

  /** Different digests have different hexadecimal forms. */
  lemma HexInjective(a: seq<byte>, b: seq<byte>)
    requires Hex(a) == Hex(b)
    ensures a == b
  {
    HexRoundTrip(a);
    HexRoundTrip(b);
  }

  // ---------------------------------------------------------------------------
  // File names
  // ---------------------------------------------------------------------------

  /** `cacheFileURL(for:)`, without the directory: `<sha256Hash(of: text)>.mp3`. */
  function FileName(sha256: seq<byte> -> Digest, text: string): string {
    Hex(sha256(Utf8(text))) + ".mp3"
  }

  /** Every name is 64 lowercase hexadecimal digits followed by ".mp3". */
  lemma FileNameShape(sha256: seq<byte> -> Digest, text: string)
    ensures |FileName(sha256, text)| == 68
    ensures FileName(sha256, text)[64..] == ".mp3"
    ensures forall i :: 0 <= i < 64 ==> IsLowerHexDigit(FileName(sha256, text)[i])
  {
    var h := Hex(sha256(Utf8(text)));
    assert (h + ".mp3")[64..] == ".mp3";
    assert forall i :: 0 <= i < 64 ==> (h + ".mp3")[i] == h[i];
  }

  /** Two texts share a file exactly when the digests of their UTF-8 bytes agree. */
  lemma SameFileIffSameDigest(sha256: seq<byte> -> Digest, s: string, t: string)
    ensures FileName(sha256, s) == FileName(sha256, t) <==> sha256(Utf8(s)) == sha256(Utf8(t))
  {
    var hs, ht := Hex(sha256(Utf8(s))), Hex(sha256(Utf8(t)));
    if FileName(sha256, s) == FileName(sha256, t) {
      assert hs == (hs + ".mp3")[..64] == (ht + ".mp3")[..64] == ht;
      HexInjective(sha256(Utf8(s)), sha256(Utf8(t)));
    }
  }

  // ---------------------------------------------------------------------------
  // The directory
  // ---------------------------------------------------------------------------

  /** The sum of the sizes of the files of a directory. */
  ghost function TotalSize(files: map<string, seq<byte>>): nat
    decreases |files|
  {
    if files == map[] then 0
    else
      var name :| name in files;
      |files[name]| + TotalSize(files - {name})
  }

  /** The total does not depend on which file is counted first. */
  lemma {:induction false} TotalSizeRemove(files: map<string, seq<byte>>, name: string)
    requires name in files
    ensures TotalSize(files) == |files[name]| + TotalSize(files - {name})
    decreases |files|
  {
    var first :| first in files && TotalSize(files) == |files[first]| + TotalSize(files - {first});
    if first != name {
      var rest := files - {first};
      assert name in rest && rest[name] == files[name];
      TotalSizeRemove(rest, name);
      var other := files - {name};
      assert first in other && other[first] == files[first];
      TotalSizeRemove(other, first);
      assert rest - {name} == other - {first};
    }
  }

  class AudioCacheService {
    /** The digest this service names files by. */
    const sha256: seq<byte> -> Digest
    /** The files of the cache directory. */
    var files: map<string, seq<byte>>

    /** The cache directory is taken as it is found (files of earlier runs persist). */
    constructor (sha256: seq<byte> -> Digest, files: map<string, seq<byte>>)
      ensures this.sha256 == sha256 && this.files == files
    {
      this.sha256 := sha256;
      this.files := files;
    }

    /** `isCached(_:)`: the text's file exists. */
    function IsCached(text: string): (b: bool)
      reads this
      ensures b <==> exists name :: name in files && name == FileName(sha256, text)
    {
      FileName(sha256, text) in files
    }

    /** `getCachedAudio(for:)`: the file's contents, nil when it is missing or cannot be read. */
    function GetCachedAudio(text: string, readFails: bool): (r: Option<seq<byte>>)
      reads this
      ensures r.Some? <==> IsCached(text) && !readFails
      ensures r.Some? ==> r.value == files[FileName(sha256, text)]
    {
      var name := FileName(sha256, text);
      if name !in files then None
      else if readFails then None
      else Some(files[name])
    }

    /** `cacheAudio(_:for:)`: writes (or overwrites) the text's file; a failed write changes nothing. */
    method CacheAudio(data: seq<byte>, text: string, writeFails: bool)
      modifies this
      ensures writeFails ==> files == old(files)
      ensures !writeFails ==> files == old(files)[FileName(sha256, text) := data]
      ensures !writeFails ==> IsCached(text) && GetCachedAudio(text, false) == Some(data)
      ensures forall t :: FileName(sha256, t) != FileName(sha256, text) ==>
        GetCachedAudio(t, false) == old(GetCachedAudio(t, false))
    {
      var name := FileName(sha256, text);
      if !writeFails {
        files := files[name := data];
      }
    }

    /**
     * `clearCache()`: removes the listed files one by one. A failed listing
     * removes nothing; the first removal that fails ends the loop, leaving
     * that file and the ones not reached yet, so no undeletable file is ever
     * removed.
     */
    method ClearCache(listingFails: bool, undeletable: set<string>)
      modifies this
      ensures files.Keys <= old(files).Keys
      ensures forall name :: name in files ==> files[name] == old(files)[name]
      ensures listingFails ==> files == old(files)
      ensures !listingFails && old(files).Keys !! undeletable ==> files == map[]
      ensures !listingFails && old(files).Keys !! undeletable ==>
        CachedFileCount(false) == 0 && forall text :: !IsCached(text)
      ensures files != map[] ==> listingFails || exists name :: name in files && name in undeletable
      ensures old(files).Keys * undeletable <= files.Keys
    {
      if listingFails {
        return;
      }
      while files != map[]
        invariant files.Keys <= old(files).Keys
        invariant forall name :: name in files ==> files[name] == old(files)[name]
        invariant old(files).Keys * undeletable <= files.Keys
        decreases |files|
      {
        var name :| name in files;
        if name in undeletable {
          return;
        }
        files := files - {name};
      }
    }

    /** `cacheSize()`: the sum of the sizes of the listed files, 0 when the listing or a size lookup fails. */
    method CacheSize(listingFails: bool, unreadable: set<string>) returns (totalSize: nat)
      ensures listingFails || !(files.Keys !! unreadable) ==> totalSize == 0
      ensures !listingFails && files.Keys !! unreadable ==> totalSize == TotalSize(files)
    {
      if listingFails {
        return 0;
      }
      var rest := files;
      totalSize := 0;
      while rest != map[]
        invariant rest.Keys <= files.Keys
        invariant forall name :: name in rest ==> rest[name] == files[name]
        invariant files.Keys !! unreadable ==> totalSize + TotalSize(rest) == TotalSize(files)
        invariant !(rest.Keys !! unreadable) || files.Keys !! unreadable
        decreases |rest|
      {
        var name :| name in rest;
        if name in unreadable {
          return 0;
        }
        TotalSizeRemove(rest, name);
        totalSize := totalSize + |rest[name]|;
        rest := rest - {name};
      }
    }

    /** `cachedFileCount`: how many files are listed, 0 when the listing fails. */
    function CachedFileCount(listingFails: bool): (n: nat)
      reads this
      ensures listingFails ==> n == 0
      ensures !listingFails ==> n == |files.Keys|
    {
      if listingFails then 0 else |files.Keys|
    }
  }
}
