/** File names: canonical blobs, quarantined blobs and the staging files that cleanup may remove. */
module Names {
  import opened Collections
  import opened Crc32c

  const MAX_FILENAME_SUFFIX_LEN := 32
  const HEX_DIGITS: string := "0123456789abcdef"

  predicate IsHex(c: char) {
    '0' <= c <= '9' || 'a' <= c <= 'f'
  }

  predicate IsHash(s: string) {
    |s| == 64 && forall i :: 0 <= i < |s| ==> IsHex(s[i])
  }

  predicate ValidSuffix(suffix: string) {
    && 2 <= |suffix| <= MAX_FILENAME_SUFFIX_LEN
    && suffix[0] == '.'
    && forall i :: 1 <= i < |suffix| ==>
      'a' <= suffix[i] <= 'z' || '0' <= suffix[i] <= '9' || suffix[i] == '_' || suffix[i] == '-'
  }

  // ---- Identifiers --------------------------------------------------------------------------

  function High(byte: Byte): (c: char)
    ensures IsHex(c)
  {
    HEX_DIGITS[(byte >> 4) as nat]
  }

  function Low(byte: Byte): (c: char)
    ensures IsHex(c)
  {
    HEX_DIGITS[(byte & 0x0f) as nat]
  }

  function HexPair(byte: Byte): string {
    [High(byte), Low(byte)]
  }

  function Hex(bytes: seq<Byte>): string {
    if bytes == [] then "" else HexPair(bytes[0]) + Hex(bytes[1..])
  }

  lemma {:induction false} HexIsHex(bytes: seq<Byte>)
    ensures |Hex(bytes)| == 2 * |bytes|
    ensures forall i :: 0 <= i < |Hex(bytes)| ==> IsHex(Hex(bytes)[i])
  {
    hide High, Low;
    if bytes != [] {
      HexIsHex(bytes[1..]);
    }
  }

  /** Each byte becomes two lower-case digits, the one for its upper half first. */
  lemma {:induction false} HexDigits(bytes: seq<Byte>, i: nat)
    requires i < |bytes|
    ensures |Hex(bytes)| == 2 * |bytes|
    ensures Hex(bytes)[2 * i] == "0123456789abcdef"[bytes[i] as nat / 16]
    ensures Hex(bytes)[2 * i + 1] == "0123456789abcdef"[bytes[i] as nat % 16]
  {
    hide High, Low;
    HexIsHex(bytes);
    if i == 0 {
      Halves(bytes[0]);
    } else {
      HexDigits(bytes[1..], i - 1);
      assert Hex(bytes)[2..] == Hex(bytes[1..]);
    }
  }

  lemma HalfValues(byte: Byte)
    ensures (byte >> 4) as nat == byte as nat / 16 && (byte & 0x0f) as nat == byte as nat % 16
  {
  }

  lemma Halves(byte: Byte)
    ensures byte as nat < 256
    ensures High(byte) == "0123456789abcdef"[byte as nat / 16] && Low(byte) == "0123456789abcdef"[byte as nat % 16]
  {
    HalfValues(byte);
  }

  lemma DigitsInjective(i: nat, j: nat)
    requires i < 16 && j < 16 && HEX_DIGITS[i] == HEX_DIGITS[j]
    ensures i == j
  {
  }

  lemma NibblesDetermine(a: Byte, b: Byte)
    requires a >> 4 == b >> 4 && a & 0x0f == b & 0x0f
    ensures a == b
  {
  }

  lemma HexPairInjective(a: Byte, b: Byte)
    requires HexPair(a) == HexPair(b)
    ensures a == b
  {
    assert HexPair(a)[0] == HexPair(b)[0] && HexPair(a)[1] == HexPair(b)[1];
    DigitsInjective((a >> 4) as nat, (b >> 4) as nat);
    DigitsInjective((a & 0x0f) as nat, (b & 0x0f) as nat);
    NibblesDetermine(a, b);
  }

  /** Different bytes have different names. */
  lemma {:induction false} HexInjective(a: seq<Byte>, b: seq<Byte>)
    requires Hex(a) == Hex(b)
    ensures a == b
  {
    hide High, Low;
    HexIsHex(a);
    HexIsHex(b);
    if a != [] {
      assert Hex(a)[..2] == HexPair(a[0]) && Hex(a)[2..] == Hex(a[1..]);
      assert Hex(b)[..2] == HexPair(b[0]) && Hex(b)[2..] == Hex(b[1..]);
      HexPairInjective(a[0], b[0]);
      HexInjective(a[1..], b[1..]);
    }
  }

  method RandomIdentifier(bytes: seq<Byte>) returns (result: string)
    ensures result == Hex(bytes)
  {
    hide High, Low;
    result := "";
    var rest := bytes;
    while rest != []
      invariant result + Hex(rest) == Hex(bytes)
      decreases |rest|
    {
      var byte := rest[0];
      rest := rest[1..];
      assert result + HexPair(byte) == result + [High(byte)] + [Low(byte)];
      result := result + [High(byte)];
      result := result + [Low(byte)];
    }
  }

  // ---- Names ----------------------------------------------------------------------------------

  function BlobName(hash: string, suffix: string): string {
    hash + suffix
  }

  function Marker(suffix: string): string {
    suffix + ".tmp-v1."
  }

  function TempName(hash: string, suffix: string, kind: string, identifier: string): string {
    hash + Marker(suffix) + kind + "." + identifier
  }

  function QuarantineName(hash: string, suffix: string, identifier: string): string {
    hash + suffix + ".quarantine-v1." + identifier
  }

  /** The names that a store with the suffix .blob gives to a key: its file, a staging file and a quarantined file. */
  lemma NamesSpelledOut(hash: string, identifier: string)
    ensures BlobName(hash, ".blob") == hash + ".blob"
    ensures TempName(hash, ".blob", "save", identifier) == hash + ".blob.tmp-v1.save." + identifier
    ensures TempName(hash, ".blob", "clear", identifier) == hash + ".blob.tmp-v1.clear." + identifier
    ensures QuarantineName(hash, ".blob", identifier) == hash + ".blob.quarantine-v1." + identifier
  {
    assert ".blob" + ".tmp-v1." + "save" + "." == ".blob.tmp-v1.save.";
    assert ".blob" + ".tmp-v1." + "clear" + "." == ".blob.tmp-v1.clear.";
    assert ".blob" + ".quarantine-v1." == ".blob.quarantine-v1.";
    assert hash + (".blob" + ".tmp-v1.") + "save" + "." + identifier
        == hash + (".blob" + ".tmp-v1." + "save" + ".") + identifier;
    assert hash + (".blob" + ".tmp-v1.") + "clear" + "." + identifier
        == hash + (".blob" + ".tmp-v1." + "clear" + ".") + identifier;
    assert hash + ".blob" + ".quarantine-v1." + identifier == hash + (".blob" + ".quarantine-v1.") + identifier;
  }

  predicate IsKind(kind: string) {
    kind == "save" || kind == "clear"
  }

  predicate At(s: string, i: nat, sep: string) {
    i + |sep| <= |s| && s[i..i + |sep|] == sep
  }

  /** The parts before and after the first occurrence of sep at or after from. */
  function SplitFrom(s: string, sep: string, from: nat): Option<(string, string)>
    decreases |s| - from
  {
    if from + |sep| > |s| then None
    else if At(s, from, sep) then Some((s[..from], s[from + |sep|..]))
    else if from == |s| then None
    else SplitFrom(s, sep, from + 1)
  }

  function SplitOnce(s: string, sep: string): Option<(string, string)> {
    SplitFrom(s, sep, 0)
  }

  predicate IsOwnedTemporaryFilename(name: string, suffix: string) {
    match SplitOnce(name, Marker(suffix))
    case None => false
    case Some((hash, rest)) =>
      IsHash(hash) &&
      match SplitOnce(rest, ".")
      case None => false
      case Some((kind, identifier)) => IsKind(kind) && IsHash(identifier)
  }

  /** The part of a file name before its last dot. */
  function FileStem(name: string): string {
    if name == "" || name == ".." then name else StemBefore(name, |name| - 1)
  }

  function StemBefore(name: string, i: nat): string
    requires i < |name|
  {
    if i == 0 then name else if name[i] == '.' then name[..i] else StemBefore(name, i - 1)
  }

  lemma {:induction false} StemOfDot(name: string, dot: nat, i: nat)
    requires 0 < dot <= i < |name| && name[dot] == '.'
    requires forall k :: dot < k < |name| ==> name[k] != '.'
    ensures StemBefore(name, i) == name[..dot]
  {
    if i > dot {
      StemOfDot(name, dot, i - 1);
    }
  }

  /** The hash is recovered from the canonical name, whatever the suffix. */
  lemma StemIsHash(hash: string, suffix: string)
    requires IsHash(hash) && ValidSuffix(suffix)
    ensures FileStem(BlobName(hash, suffix)) == hash
  {
    var name := BlobName(hash, suffix);
    assert name[64] == suffix[0];
    forall k | 64 < k < |name| ensures name[k] != '.' {
      assert name[k] == suffix[k - 64];
    }
    StemOfDot(name, 64, |name| - 1);
    assert name[..64] == hash;
  }

  // ---- The grammar of staging names ------------------------------------------------------------

  lemma {:induction false} SplitFromIs(s: string, sep: string, from: nat, at: nat)
    requires from <= at && At(s, at, sep)
    requires forall i :: from <= i < at ==> !At(s, i, sep)
    ensures SplitFrom(s, sep, from) == Some((s[..at], s[at + |sep|..]))
    decreases at - from
  {
    if from < at {
      SplitFromIs(s, sep, from + 1, at);
    }
  }

  lemma {:induction false} SplitFromParts(s: string, sep: string, from: nat)
    requires SplitFrom(s, sep, from).Some?
    ensures var (front, back) := SplitFrom(s, sep, from).value;
            s == front + sep + back
    decreases |s| - from
  {
    if At(s, from, sep) {
      assert s == s[..from] + s[from..from + |sep|] + s[from + |sep|..];
    } else {
      SplitFromParts(s, sep, from + 1);
    }
  }

  /** A separator that starts with a dot is found right behind a part without dots. */
  lemma SplitAfterDotless(front: string, sep: string, back: string)
    requires |sep| > 0 && sep[0] == '.'
    requires forall i :: 0 <= i < |front| ==> front[i] != '.'
    ensures SplitOnce(front + sep + back, sep) == Some((front, back))
  {
    var s := front + sep + back;
    assert s[|front|..|front| + |sep|] == sep;
    forall i | 0 <= i < |front| ensures !At(s, i, sep) {
      assert s[i] == front[i];
      assert i + |sep| <= |s| ==> s[i..i + |sep|][0] == s[i];
    }
    SplitFromIs(s, sep, 0, |front|);
    assert s[..|front|] == front && s[|front| + |sep|..] == back;
  }

  /** Every name that save or clear generates is recognised. */
  lemma GeneratedIsOwned(hash: string, suffix: string, kind: string, identifier: string)
    requires ValidSuffix(suffix) && IsHash(hash) && IsKind(kind) && IsHash(identifier)
    ensures IsOwnedTemporaryFilename(TempName(hash, suffix, kind, identifier), suffix)
  {
    var rest := kind + "." + identifier;
    assert TempName(hash, suffix, kind, identifier) == hash + Marker(suffix) + rest;
    SplitAfterDotless(hash, Marker(suffix), rest);
    SplitAfterDotless(kind, ".", identifier);
  }

  /** And nothing else is. */
  lemma OwnedIsGenerated(name: string, suffix: string) returns (hash: string, kind: string, identifier: string)
    requires IsOwnedTemporaryFilename(name, suffix)
    ensures IsHash(hash) && IsKind(kind) && IsHash(identifier)
    ensures name == TempName(hash, suffix, kind, identifier)
  {
    var (h, rest) := SplitOnce(name, Marker(suffix)).value;
    var (k, id) := SplitOnce(rest, ".").value;
    SplitFromParts(name, Marker(suffix), 0);
    SplitFromParts(rest, ".", 0);
    hash, kind, identifier := h, k, id;
    assert h + Marker(suffix) + (k + "." + id) == h + Marker(suffix) + k + "." + id;
  }

  /** Cleanup recognises exactly the staging names of save and clear, for every legal suffix. */
  lemma OwnedExactly(name: string, suffix: string)
    requires ValidSuffix(suffix)
    ensures IsOwnedTemporaryFilename(name, suffix)
       <==> exists hash, kind, identifier :: IsHash(hash) && IsKind(kind) && IsHash(identifier)
              && name == TempName(hash, suffix, kind, identifier)
  {
    hide IsOwnedTemporaryFilename, TempName;
    if IsOwnedTemporaryFilename(name, suffix) {
      var hash, kind, identifier := OwnedIsGenerated(name, suffix);
    }
    forall hash, kind, identifier | IsHash(hash) && IsKind(kind) && IsHash(identifier)
      && name == TempName(hash, suffix, kind, identifier)
      ensures IsOwnedTemporaryFilename(name, suffix)
    {
      GeneratedIsOwned(hash, suffix, kind, identifier);
    }
  }

  /** A staging name says which blob, which operation and which attempt it belongs to. */
  lemma TempNameInjective(h1: string, k1: string, i1: string, h2: string, k2: string, i2: string, suffix: string)
    requires IsHash(h1) && IsHash(h2) && IsKind(k1) && IsKind(k2) && IsHash(i1) && IsHash(i2)
    requires TempName(h1, suffix, k1, i1) == TempName(h2, suffix, k2, i2)
    ensures h1 == h2 && k1 == k2 && i1 == i2
  {
    var a, b := TempName(h1, suffix, k1, i1), TempName(h2, suffix, k2, i2);
    assert a[..64] == h1 && b[..64] == h2;
    assert a[|a| - 64..] == i1 && b[|b| - 64..] == i2;
    var at := 64 + |Marker(suffix)|;
    assert a[at..|a| - 65] == k1 && b[at..|b| - 65] == k2;
  }

  /** Where the second dot of a name is, counting the one that starts the suffix. */
  lemma SuffixEndsAtDot(hash: string, suffix: string, tail: string, name: string, k: nat)
    requires IsHash(hash) && ValidSuffix(suffix) && tail != "" && tail[0] == '.'
    requires name == hash + suffix + tail
    requires 64 < k <= 64 + |suffix|
    ensures k < |name| && (name[k] == '.' <==> k == 64 + |suffix|)
  {
    if k < 64 + |suffix| {
      assert name[k] == suffix[k - 64];
    }
  }

  lemma SameSuffix(h1: string, s1: string, t1: string, h2: string, s2: string, t2: string)
    requires IsHash(h1) && IsHash(h2) && ValidSuffix(s1) && ValidSuffix(s2)
    requires t1 != "" && t2 != "" && t1[0] == '.' && t2[0] == '.'
    requires h1 + s1 + t1 == h2 + s2 + t2
    ensures s1 == s2 && t1 == t2
  {
    var name := h1 + s1 + t1;
    assert name[64 + |s1|] == '.' && name[64 + |s2|] == '.';
    if |s1| < |s2| {
      SuffixEndsAtDot(h2, s2, t2, name, 64 + |s1|);
    } else if |s2| < |s1| {
      SuffixEndsAtDot(h1, s1, t1, name, 64 + |s2|);
    }
    assert name[64..64 + |s1|] == s1 && name[64..64 + |s2|] == s2;
    assert name[64 + |s1|..] == t1 && name[64 + |s2|..] == t2;
  }

  function TempTail(kind: string, identifier: string): string {
    ".tmp-v1." + kind + "." + identifier
  }

  lemma TempParts(hash: string, suffix: string, kind: string, identifier: string)
    ensures TempName(hash, suffix, kind, identifier) == hash + suffix + TempTail(kind, identifier)
  {
  }

  /** A staging name is owned under one suffix only, so stores of other formats are left alone. */
  lemma OwnedUnderOneSuffix(hash: string, suffix: string, kind: string, identifier: string, other: string)
    requires ValidSuffix(suffix) && ValidSuffix(other) && IsHash(hash) && IsKind(kind) && IsHash(identifier)
    ensures IsOwnedTemporaryFilename(TempName(hash, suffix, kind, identifier), other) <==> suffix == other
  {
    var name := TempName(hash, suffix, kind, identifier);
    GeneratedIsOwned(hash, suffix, kind, identifier);
    if IsOwnedTemporaryFilename(name, other) {
      var h, k, i := OwnedIsGenerated(name, other);
      TempParts(hash, suffix, kind, identifier);
      TempParts(h, other, k, i);
      SameSuffix(hash, suffix, TempTail(kind, identifier), h, other, TempTail(k, i));
    }
  }

  /** No canonical name is owned, under any suffix. */
  lemma CanonicalNeverOwned(hash: string, suffix: string, other: string)
    requires IsHash(hash) && ValidSuffix(suffix) && ValidSuffix(other)
    ensures !IsOwnedTemporaryFilename(BlobName(hash, suffix), other)
  {
    if IsOwnedTemporaryFilename(BlobName(hash, suffix), other) {
      var h, k, i := OwnedIsGenerated(BlobName(hash, suffix), other);
      assert false;
    }
  }

  /** No quarantine name is owned, under any suffix. */
  lemma QuarantineNeverOwned(hash: string, suffix: string, identifier: string, other: string)
    requires IsHash(hash) && ValidSuffix(suffix) && ValidSuffix(other)
    ensures !IsOwnedTemporaryFilename(QuarantineName(hash, suffix, identifier), other)
  {
    if IsOwnedTemporaryFilename(QuarantineName(hash, suffix, identifier), other) {
      var h, k, i := OwnedIsGenerated(QuarantineName(hash, suffix, identifier), other);
      TempParts(h, other, k, i);
      var tail := ".quarantine-v1." + identifier;
      assert QuarantineName(hash, suffix, identifier) == hash + suffix + tail;
      assert tail[1] == 'q' && TempTail(k, i)[1] == 't';
      SameSuffix(hash, suffix, tail, h, other, TempTail(k, i));
      assert false;
    }
  }

  /** Canonical and quarantine names do not meet either. */
  lemma CanonicalNeverQuarantine(hash: string, suffix: string, h: string, other: string, identifier: string)
    requires IsHash(hash) && ValidSuffix(suffix) && IsHash(h) && ValidSuffix(other) && IsHash(identifier)
    ensures BlobName(hash, suffix) != QuarantineName(h, other, identifier)
  {
    assert |QuarantineName(h, other, identifier)| > 128;
  }

  /** Different keys have different canonical names. */
  lemma BlobNameInjective(a: seq<Byte>, b: seq<Byte>, suffix: string)
    requires BlobName(Hex(a), suffix) == BlobName(Hex(b), suffix)
    ensures a == b
  {
    hide Hex;
    var name := BlobName(Hex(a), suffix);
    assert |Hex(a)| == |name| - |suffix| == |Hex(b)|;
    assert name[..|Hex(a)|] == Hex(a) && name[..|Hex(b)|] == Hex(b);
    HexInjective(a, b);
  }
}
