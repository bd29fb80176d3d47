/** The 128-byte header of an encrypted file, as extra/file_encrypt/chacha.cpp writes, opens and
    re-keys it. SHA-256 and PBKDF2 are functions of which only the size of the result is known. */
module EncryptedHeader {

  type octet = bv8
  type Octets = seq<octet>

  const HEADER_SIZE: nat := 128
  const KEY_SIZE: nat := 32
  const CHECK_LEN_HASH_ITERATION: bv32 := 1001
  const CREATE_DEFAULT: bv32 := 13
  const OPEN_DEFAULT: bv32 := 20

  /** `kdf(password, salt, iterations, n)` derives `n` bytes. */
  datatype Crypto = Crypto(hash: Octets -> Octets, kdf: (Octets, Octets, bv32, nat) -> Octets)

  ghost predicate Sized(c: Crypto) {
    forall p, s, i, n {:trigger c.kdf(p, s, i, n)} :: |c.kdf(p, s, i, n)| == n
  }

  function Splice(h: Octets, at: nat, bytes: Octets): (r: Octets)
    requires at + |bytes| <= |h|
    ensures |r| == |h|
  {
    h[..at] + bytes + h[at + |bytes|..]
  }

  lemma SplicedInside(h: Octets, at: nat, bytes: Octets)
    requires at + |bytes| <= |h|
    ensures Splice(h, at, bytes)[at..at + |bytes|] == bytes
  {
  }

  lemma SplicedOutside(h: Octets, at: nat, bytes: Octets, lo: nat, hi: nat)
    requires at + |bytes| <= |h| && lo <= hi <= |h| && (hi <= at || at + |bytes| <= lo)
    ensures Splice(h, at, bytes)[lo..hi] == h[lo..hi]
  {
  }

  function Xor(a: Octets, b: Octets): (r: Octets)
    requires |a| == |b|
    ensures |r| == |a|
  {
    seq(|a|, i requires 0 <= i < |a| => a[i] ^ b[i])
  }

  lemma XorTwice(a: Octets, b: Octets)
    requires |a| == |b|
    ensures Xor(Xor(a, b), b) == a && Xor(b, Xor(a, b)) == a && Xor(a, b) == Xor(b, a)
  {
    forall i | 0 <= i < |a|
      ensures (a[i] ^ b[i]) ^ b[i] == a[i] && b[i] ^ (a[i] ^ b[i]) == a[i] && a[i] ^ b[i] == b[i] ^ a[i]
    {
    }
  }

  // ---- Numbers in the header ----

  function ReadUint32LE(b: Octets): bv32
    requires |b| == 4
  {
    (b[0] as bv32) | ((b[1] as bv32) << 8) | ((b[2] as bv32) << 16) | ((b[3] as bv32) << 24)
  }

  function WriteUint32LE(n: bv32): (b: Octets)
    ensures |b| == 4
  {
    [(n & 0xFF) as bv8, ((n >> 8) & 0xFF) as bv8, ((n >> 16) & 0xFF) as bv8, ((n >> 24) & 0xFF) as bv8]
  }

  lemma ReadsWhatWasWritten(n: bv32)
    ensures ReadUint32LE(WriteUint32LE(n)) == n
  {
  }

  /** An iteration count of `len` bits whose lower bits come from `code`. */
  function GetMainIteration(code: bv32, len: bv32): bv32
    requires 1 <= len <= 32
  {
    IterationWith(TopBit(len), code)
  }

  /** The highest bit of a number with `len` bits. */
  function TopBit(len: bv32): bv32
    requires 1 <= len <= 32
  {
    (1 as bv32) << ((len - 1) as int)
  }

  /** Bit `n`, and below it the bits of `code`. */
  function IterationWith(n: bv32, code: bv32): bv32 { n | (code & (n - 1)) }

  function PackCheckCode(code: bv32, len: bv32): bv32 {
    (code & 0xFFFFFFF) | ((len - 11) << 28)
  }

  function UnpackBits(code: bv32): (len: bv32)
    ensures 11 <= len <= 26
  {
    (code >> 28) + 11
  }

  /** The bit length packed into a check code is the one that is unpacked. */
  lemma PackedBits(code: bv32, len: bv32)
    requires 11 <= len <= 26
    ensures UnpackBits(PackCheckCode(code, len)) == len
    ensures PackCheckCode(code, len) & 0xFFFFFFF == code & 0xFFFFFFF
  {
  }

  lemma PowerOfTwo(len: bv32)
    requires 11 <= len <= 26
    ensures var n := TopBit(len);
            n != 0 && n & (n - 1) == 0 && n <= 0x2000000
  {
    if len == 11 { assert (len - 1) as int == 10; }
    else if len == 12 { assert (len - 1) as int == 11; }
    else if len == 13 { assert (len - 1) as int == 12; }
    else if len == 14 { assert (len - 1) as int == 13; }
    else if len == 15 { assert (len - 1) as int == 14; }
    else if len == 16 { assert (len - 1) as int == 15; }
    else if len == 17 { assert (len - 1) as int == 16; }
    else if len == 18 { assert (len - 1) as int == 17; }
    else if len == 19 { assert (len - 1) as int == 18; }
    else if len == 20 { assert (len - 1) as int == 19; }
    else if len == 21 { assert (len - 1) as int == 20; }
    else if len == 22 { assert (len - 1) as int == 21; }
    else if len == 23 { assert (len - 1) as int == 22; }
    else if len == 24 { assert (len - 1) as int == 23; }
    else if len == 25 { assert (len - 1) as int == 24; }
    else { assert (len - 1) as int == 25; }
  }

  /** An iteration count has its bit `len - 1` set, the code's bits below and none above. */
  lemma IterationHasLength(code: bv32, len: bv32)
    requires 11 <= len <= 26
    ensures var n := TopBit(len);
            var iter := GetMainIteration(code, len);
            && n & (n - 1) == 0 && n != 0
            && iter & n == n && iter & (n - 1) == code & (n - 1) && iter & !(n | (n - 1)) == 0
  {
    PowerOfTwo(len);
    Masks(TopBit(len), code);
    hide TopBit, IterationWith;
  }

  lemma MaskBits(n: bv32, code: bv32)
    requires n & (n - 1) == 0
    ensures var iter := n | (code & (n - 1));
            iter & n == n && iter & (n - 1) == code & (n - 1) && iter & !(n | (n - 1)) == 0
  {
  }

  lemma Masks(n: bv32, code: bv32)
    requires n & (n - 1) == 0
    ensures var iter := IterationWith(n, code);
            iter & n == n && iter & (n - 1) == code & (n - 1) && iter & !(n | (n - 1)) == 0
  {
    MaskBits(n, code);
  }

  /** The least, the usual and the greatest number of bits. */
  lemma TopBits()
    ensures TopBit(11) == 0x400 && TopBit(13) == 0x1000 && TopBit(20) == 0x80000 && TopBit(26) == 0x2000000
  {
    assert (11 as bv32 - 1) as int == 10 && (13 as bv32 - 1) as int == 12;
    assert (20 as bv32 - 1) as int == 19 && (26 as bv32 - 1) as int == 25;
  }

  // ---- The header ----

  function CheckSalt(h: Octets): Octets requires |h| == HEADER_SIZE { h[..12] }
  function CheckPattern(h: Octets): Octets requires |h| == HEADER_SIZE { h[16..48] }
  function MainSalt(h: Octets): Octets requires |h| == HEADER_SIZE { h[48..60] }
  function MainCode(h: Octets): bv32 requires |h| == HEADER_SIZE { ReadUint32LE(h[60..64]) }
  function Iv(h: Octets): Octets requires |h| == HEADER_SIZE { h[64..80] }
  function XorPattern(h: Octets): Octets requires |h| == HEADER_SIZE { h[80..112] }

  function Mask(c: Crypto, h: Octets): bv32
    requires Sized(c) && |h| == HEADER_SIZE
  {
    ReadUint32LE(c.kdf(MainSalt(h), CheckSalt(h), CHECK_LEN_HASH_ITERATION, 4))
  }

  function Masked(code: bv32, mask: bv32): bv32 { code ^ mask }

  lemma MaskedTwice(code: bv32, mask: bv32)
    ensures Masked(Masked(code, mask), mask) == code
  {
  }

  function CheckCode(c: Crypto, h: Octets): bv32
    requires Sized(c) && |h| == HEADER_SIZE
  {
    Masked(ReadUint32LE(h[12..16]), Mask(c, h))
  }

  function BitCount(c: Crypto, h: Octets): (n: bv32)
    requires Sized(c) && |h| == HEADER_SIZE
    ensures 11 <= n <= 26
  {
    UnpackBits(CheckCode(c, h))
  }

  function PatternOf(c: Crypto, h: Octets, password: Octets): (p: Octets)
    requires Sized(c) && |h| == HEADER_SIZE
    ensures |p| == KEY_SIZE
  {
    c.kdf(c.hash(password), CheckSalt(h), GetMainIteration(CheckCode(c, h), BitCount(c, h)), KEY_SIZE)
  }

  predicate PasswordMatches(c: Crypto, h: Octets, password: Octets)
    requires Sized(c) && |h| == HEADER_SIZE
  {
    PatternOf(c, h, password) == CheckPattern(h)
  }

  predicate Opens(c: Crypto, h: Octets, password: Octets, limit: bv32)
    requires Sized(c) && |h| == HEADER_SIZE
  {
    BitCount(c, h) <= limit && PasswordMatches(c, h, password)
  }

  function MainKey(c: Crypto, h: Octets, password: Octets): (k: Octets)
    requires Sized(c) && |h| == HEADER_SIZE
    ensures |k| == KEY_SIZE
  {
    c.kdf(password, MainSalt(h), GetMainIteration(MainCode(h), BitCount(c, h)), KEY_SIZE)
  }

  function DataKey(c: Crypto, h: Octets, password: Octets): (k: Octets)
    requires Sized(c) && |h| == HEADER_SIZE
    ensures |k| == KEY_SIZE
  {
    Xor(MainKey(c, h, password), XorPattern(h))
  }

  /** The bit count that is used for a wanted one. */
  function Clamped(bits: int): (n: bv32)
    ensures 11 <= n <= 26
  {
    if bits < 0 then CREATE_DEFAULT else if bits < 11 then 11 else if bits > 26 then 26 else bits as bv32
  }

  /** The check code with the bit count packed into it, as it is stored. */
  function StoredCode(c: Crypto, h: Octets, bits: bv32): bv32
    requires Sized(c) && |h| == HEADER_SIZE
  {
    Masked(PackCheckCode(ReadUint32LE(h[12..16]), bits), Mask(c, h))
  }

  function WithCode(c: Crypto, h: Octets, bits: bv32): (r: Octets)
    requires Sized(c) && |h| == HEADER_SIZE
    ensures |r| == HEADER_SIZE
  {
    Splice(h, 12, WriteUint32LE(StoredCode(c, h, bits)))
  }

  function WithPattern(c: Crypto, h: Octets, password: Octets): (r: Octets)
    requires Sized(c) && |h| == HEADER_SIZE
    ensures |r| == HEADER_SIZE
  {
    Splice(h, 16, PatternOf(c, h, password))
  }

  /** A new header: `random` with the bit count and the check pattern filled in. */
  function Generated(c: Crypto, random: Octets, password: Octets, bits: int): (r: Octets)
    requires Sized(c) && |random| == HEADER_SIZE
    ensures |r| == HEADER_SIZE
  {
    WithPattern(c, WithCode(c, random, Clamped(bits)), password)
  }

  /** The header after its password has changed. */
  function Changed(c: Crypto, h: Octets, old': Octets, password: Octets): (r: Octets)
    requires Sized(c) && |h| == HEADER_SIZE
    ensures |r| == HEADER_SIZE
  {
    WithPattern(c, Splice(h, 80, Xor(MainKey(c, h, password), DataKey(c, h, old'))), password)
  }

  // ---- What the header keeps ----

  /** The fields that a new password leaves alone: salts, codes and IV. */
  predicate SameFrame(h: Octets, r: Octets)
    requires |h| == HEADER_SIZE && |r| == HEADER_SIZE
  {
    r[0..16] == h[0..16] && r[48..80] == h[48..80] && r[112..] == h[112..]
  }

  lemma FrameFixesCodes(c: Crypto, h: Octets, r: Octets, password: Octets)
    requires Sized(c) && |h| == |r| == HEADER_SIZE && SameFrame(h, r)
    ensures CheckCode(c, r) == CheckCode(c, h) && BitCount(c, r) == BitCount(c, h)
    ensures PatternOf(c, r, password) == PatternOf(c, h, password)
    ensures MainKey(c, r, password) == MainKey(c, h, password) && Iv(r) == Iv(h)
  {
    SameParts(h, r, 0, 16, 0, 12);
    SameParts(h, r, 0, 16, 12, 16);
    SameParts(h, r, 48, 80, 48, 60);
    SameParts(h, r, 48, 80, 60, 64);
    SameParts(h, r, 48, 80, 64, 80);
    hide ReadUint32LE, GetMainIteration, UnpackBits, Masked;
  }

  lemma SameParts(h: Octets, r: Octets, lo: nat, hi: nat, a: nat, b: nat)
    requires lo <= a <= b <= hi <= |h| == |r| && h[lo..hi] == r[lo..hi]
    ensures h[a..b] == r[a..b]
  {
    forall k | 0 <= k < b - a ensures h[a..b][k] == r[a..b][k] {
      assert h[lo..hi][a - lo + k] == r[lo..hi][a - lo + k];
    }
  }

  lemma PatternFits(c: Crypto, h: Octets, password: Octets)
    requires Sized(c) && |h| == HEADER_SIZE
    ensures var r := WithPattern(c, h, password);
            SameFrame(h, r) && PasswordMatches(c, r, password) && XorPattern(r) == XorPattern(h)
  {
    var r, p := WithPattern(c, h, password), PatternOf(c, h, password);
    SplicedInside(h, 16, p);
    SplicedOutside(h, 16, p, 0, 16);
    SplicedOutside(h, 16, p, 48, 80);
    SplicedOutside(h, 16, p, 80, 112);
    SplicedOutside(h, 16, p, 112, HEADER_SIZE);
    FrameFixesCodes(c, h, r, password);
  }

  /** Salts, main code, IV and pattern come from the random bytes. */
  lemma CodeLeavesTheRest(c: Crypto, h: Octets, bits: bv32)
    requires Sized(c) && |h| == HEADER_SIZE
    ensures var r := WithCode(c, h, bits);
            && CheckSalt(r) == CheckSalt(h) && MainSalt(r) == MainSalt(h) && MainCode(r) == MainCode(h)
            && Iv(r) == Iv(h) && XorPattern(r) == XorPattern(h)
  {
    var w := WriteUint32LE(StoredCode(c, h, bits));
    hide WriteUint32LE, StoredCode, ReadUint32LE, Mask;
    SplicedOutside(h, 12, w, 0, 12);
    SplicedOutside(h, 12, w, 48, 60);
    SplicedOutside(h, 12, w, 60, 64);
    SplicedOutside(h, 12, w, 64, 80);
    SplicedOutside(h, 12, w, 80, 112);
  }

  /** The check code decodes to what was encoded. */
  lemma CodeComesBack(c: Crypto, h: Octets, bits: bv32)
    requires Sized(c) && |h| == HEADER_SIZE
    ensures CheckCode(c, WithCode(c, h, bits)) == PackCheckCode(ReadUint32LE(h[12..16]), bits)
  {
    hide WriteUint32LE, PackCheckCode, ReadUint32LE, Mask, Splice, Masked;
    CodeLeavesTheRest(c, h, bits);
    SameMask(c, h, WithCode(c, h, bits));
    CodeIsRead(h, StoredCode(c, h, bits));
    MaskedTwice(PackCheckCode(ReadUint32LE(h[12..16]), bits), Mask(c, h));
  }

  /** So does the bit count. */
  lemma CodeDecodes(c: Crypto, h: Octets, bits: bv32)
    requires Sized(c) && |h| == HEADER_SIZE && 11 <= bits <= 26
    ensures BitCount(c, WithCode(c, h, bits)) == bits
  {
    hide PackCheckCode, ReadUint32LE, UnpackBits, CheckCode, WithCode;
    CodeComesBack(c, h, bits);
    PackedBits(ReadUint32LE(h[12..16]), bits);
  }

  lemma SameMask(c: Crypto, h: Octets, r: Octets)
    requires Sized(c) && |h| == |r| == HEADER_SIZE && CheckSalt(h) == CheckSalt(r) && MainSalt(h) == MainSalt(r)
    ensures Mask(c, r) == Mask(c, h)
  {
    hide ReadUint32LE;
  }

  lemma CodeIsRead(h: Octets, n: bv32)
    requires |h| == HEADER_SIZE
    ensures ReadUint32LE(Splice(h, 12, WriteUint32LE(n))[12..16]) == n
  {
    SplicedInside(h, 12, WriteUint32LE(n));
    ReadsWhatWasWritten(n);
    hide Splice, ReadUint32LE, WriteUint32LE;
  }

  /** A new header opens with its password, for a limit that covers the bit count; the key is
      that of the random bytes. */
  lemma GeneratedOpens(c: Crypto, random: Octets, password: Octets, bits: int)
    requires Sized(c) && |random| == HEADER_SIZE
    ensures var h := Generated(c, random, password, bits);
            && BitCount(c, h) == Clamped(bits) && PasswordMatches(c, h, password)
            && Iv(h) == Iv(random) && XorPattern(h) == XorPattern(random)
            && MainSalt(h) == MainSalt(random) && MainCode(h) == MainCode(random)
  {
    var h1 := WithCode(c, random, Clamped(bits));
    var h := Generated(c, random, password, bits);
    CodeDecodes(c, random, Clamped(bits));
    CodeLeavesTheRest(c, random, Clamped(bits));
    PatternFits(c, h1, password);
    FrameFixesCodes(c, h1, h, password);
    FrameFixesMain(h1, h);
  }

  lemma FrameFixesMain(h: Octets, r: Octets)
    requires |h| == |r| == HEADER_SIZE && SameFrame(h, r)
    ensures MainSalt(r) == MainSalt(h) && MainCode(r) == MainCode(h)
  {
    hide ReadUint32LE;
    SameParts(h, r, 48, 80, 48, 60);
    SameParts(h, r, 48, 80, 60, 64);
  }

  /** A changed password opens what the old one opened, with the key the old one gave. */
  lemma ChangeKeepsKey(c: Crypto, h: Octets, old': Octets, password: Octets)
    requires Sized(c) && |h| == HEADER_SIZE
    ensures var r := Changed(c, h, old', password);
            && SameFrame(h, r) && BitCount(c, r) == BitCount(c, h) && Iv(r) == Iv(h)
            && PasswordMatches(c, r, password) && DataKey(c, r, password) == DataKey(c, h, old')
  {
    var x := Xor(MainKey(c, h, password), DataKey(c, h, old'));
    var h1 := Splice(h, 80, x);
    var r := Changed(c, h, old', password);
    SplicedInside(h, 80, x);
    SplicedOutside(h, 80, x, 0, 16);
    SplicedOutside(h, 80, x, 48, 80);
    SplicedOutside(h, 80, x, 112, HEADER_SIZE);
    PatternFits(c, h1, password);
    FrameFixesCodes(c, h, r, password);
    XorTwice(DataKey(c, h, old'), MainKey(c, h, password));
  }

  /** Success with an old password that is not the current one keeps the data key exactly when
      both derive the same main key. */
  lemma ChangeKeepsKeyExactly(c: Crypto, h: Octets, current: Octets, old': Octets, password: Octets)
    requires Sized(c) && |h| == HEADER_SIZE
    ensures DataKey(c, Changed(c, h, old', password), password) == DataKey(c, h, current) <==>
            MainKey(c, h, old') == MainKey(c, h, current)
  {
    ChangeKeepsKey(c, h, old', password);
    XorTwice(MainKey(c, h, old'), XorPattern(h));
    XorTwice(MainKey(c, h, current), XorPattern(h));
  }

  // ---- Chains of changes ----

  /** One call of `changePassword`. */
  datatype Change = Change(old': Octets, password: Octets, limit: bv32)

  /** Header and password after one call: a call that fails changes nothing. */
  function Applied(c: Crypto, h: Octets, current: Octets, change: Change): (r: (Octets, Octets))
    requires Sized(c) && |h| == HEADER_SIZE
    ensures |r.0| == HEADER_SIZE
  {
    if Opens(c, h, change.old', change.limit) then (Changed(c, h, change.old', change.password), change.password)
    else (h, current)
  }

  function AllApplied(c: Crypto, h: Octets, current: Octets, changes: seq<Change>): (r: (Octets, Octets))
    requires Sized(c) && |h| == HEADER_SIZE
    ensures |r.0| == HEADER_SIZE
  {
    if changes == [] then (h, current)
    else
      var (h1, p1) := AllApplied(c, h, current, changes[..|changes| - 1]);
      Applied(c, h1, p1, changes[|changes| - 1])
  }

  /** Whoever succeeds in changing the password gave the current one. */
  predicate Honest(c: Crypto, h: Octets, current: Octets, changes: seq<Change>)
    requires Sized(c) && |h| == HEADER_SIZE
  {
    changes == [] ||
      (var (h1, p1) := AllApplied(c, h, current, changes[..|changes| - 1]);
       var last := changes[|changes| - 1];
       Honest(c, h, current, changes[..|changes| - 1]) && (Opens(c, h1, last.old', last.limit) ==> last.old' == p1))
  }

  lemma {:induction false} ChangesKeepKey(c: Crypto, h: Octets, current: Octets, changes: seq<Change>)
    requires Sized(c) && |h| == HEADER_SIZE && PasswordMatches(c, h, current)
    requires Honest(c, h, current, changes)
    ensures var (r, p) := AllApplied(c, h, current, changes);
            && PasswordMatches(c, r, p) && BitCount(c, r) == BitCount(c, h)
            && DataKey(c, r, p) == DataKey(c, h, current) && Iv(r) == Iv(h)
  {
    hide PasswordMatches, DataKey, BitCount, Changed, Iv, SameFrame;
    if changes != [] {
      var before, last := changes[..|changes| - 1], changes[|changes| - 1];
      ChangesKeepKey(c, h, current, before);
      var (h1, p1) := AllApplied(c, h, current, before);
      ChangeKeepsKey(c, h1, last.old', last.password);
    }
  }

  /** Password rotation: after a header has been generated, for any wanted bit count, and after any
      calls of `changePassword`, successful or not, the latest password opens it exactly for
      limits that cover the bit count, and yields the first key and IV. */
  lemma PasswordRotation(c: Crypto, random: Octets, first: Octets, bits: int, changes: seq<Change>, limit: bv32)
    requires Sized(c) && |random| == HEADER_SIZE
    requires Honest(c, Generated(c, random, first, bits), first, changes)
    ensures var h := Generated(c, random, first, bits);
            var (r, p) := AllApplied(c, h, first, changes);
            && (Opens(c, r, p, limit) <==> Clamped(bits) <= limit)
            && DataKey(c, r, p) == DataKey(c, h, first) && Iv(r) == Iv(random)
  {
    GeneratedOpens(c, random, first, bits);
    hide Generated, PasswordMatches, BitCount, AllApplied, Honest;
    ChangesKeepKey(c, Generated(c, random, first, bits), first, changes);
  }

  /** The key that `GenerateHeader` hands to the cipher is the one that opening yields. */
  lemma GeneratedKey(c: Crypto, random: Octets, password: Octets, bits: int)
    requires Sized(c) && |random| == HEADER_SIZE
    ensures DataKey(c, Generated(c, random, password, bits), password) ==
            Xor(c.kdf(password, MainSalt(random), GetMainIteration(MainCode(random), Clamped(bits)), KEY_SIZE),
                XorPattern(random))
  {
    GeneratedOpens(c, random, password, bits);
    hide Generated, Xor, GetMainIteration;
  }

  // ---- Which passwords open a header ----

  /** The least byte comes first. */
  lemma LittleEndian(b: Octets)
    requires |b| == 4
    ensures var n := ReadUint32LE(b);
            n & 0xFF == b[0] as bv32 && (n >> 8) & 0xFF == b[1] as bv32
            && (n >> 16) & 0xFF == b[2] as bv32 && n >> 24 == b[3] as bv32
  {
  }

  lemma PackedMaskBits(n: bv32, code: bv32, hi: bv32)
    requires n != 0 && n <= 0x2000000
    ensures n | (((code & 0xFFFFFFF) | (hi << 28)) & (n - 1)) == n | (code & (n - 1))
  {
  }

  lemma PackedMask(n: bv32, code: bv32, len: bv32)
    requires n != 0 && n <= 0x2000000
    ensures IterationWith(n, PackCheckCode(code, len)) == IterationWith(n, code)
  {
    PackedMaskBits(n, code, len - 11);
  }

  /** Packing the bit count into a code leaves the iteration count that the code gives. */
  lemma PackedIteration(code: bv32, len: bv32)
    requires 11 <= len <= 26
    ensures GetMainIteration(PackCheckCode(code, len), len) == GetMainIteration(code, len)
  {
    hide TopBit, IterationWith, PackCheckCode;
    PowerOfTwo(len);
    PackedMask(TopBit(len), code, len);
  }

  /** What a new header asks of password `q`: the pattern that `q` derives from the check salt. */
  lemma GeneratedPattern(c: Crypto, random: Octets, p: Octets, bits: int, q: Octets)
    requires Sized(c) && |random| == HEADER_SIZE
    ensures var h := Generated(c, random, p, bits);
            var code := ReadUint32LE(random[12..16]);
            PatternOf(c, h, q) ==
            c.kdf(c.hash(q), random[..12], GetMainIteration(PackCheckCode(code, Clamped(bits)), Clamped(bits)), 32)
  {
    var h1 := WithCode(c, random, Clamped(bits));
    var h := Generated(c, random, p, bits);
    GeneratedOpens(c, random, p, bits);
    CodeComesBack(c, random, Clamped(bits));
    CodeLeavesTheRest(c, random, Clamped(bits));
    PatternFits(c, h1, p);
    FrameFixesCodes(c, h1, h, q);
    SameParts(h1, h, 0, 16, 0, 12);
    hide WithCode, Generated, ReadUint32LE, PackCheckCode, GetMainIteration, SameFrame, CheckCode, BitCount;
  }

  /** A new header opens with a password exactly when the limit covers the bit count and the password
      derives the same check pattern as the right one, with the iteration count that its random
      bytes and the bit count give. */
  lemma OpensExactly(c: Crypto, random: Octets, p: Octets, bits: int, q: Octets, limit: bv32)
    requires Sized(c) && |random| == HEADER_SIZE
    ensures var code := ReadUint32LE(random[12..16]);
            var n := GetMainIteration(code, Clamped(bits));
            Opens(c, Generated(c, random, p, bits), q, limit) <==>
            Clamped(bits) <= limit && c.kdf(c.hash(q), random[..12], n, 32) == c.kdf(c.hash(p), random[..12], n, 32)
  {
    GeneratedOpens(c, random, p, bits);
    GeneratedPattern(c, random, p, bits, q);
    GeneratedPattern(c, random, p, bits, p);
    PackedIteration(ReadUint32LE(random[12..16]), Clamped(bits));
    hide Generated, PatternOf, ReadUint32LE, PackCheckCode, GetMainIteration, BitCount;
  }

  lemma {:induction false} ChangesKeepFrame(c: Crypto, h: Octets, current: Octets, changes: seq<Change>)
    requires Sized(c) && |h| == HEADER_SIZE
    ensures SameFrame(h, AllApplied(c, h, current, changes).0)
  {
    hide SameFrame, Opens, Changed;
    FrameOfItself(h);
    if changes != [] {
      var before, last := changes[..|changes| - 1], changes[|changes| - 1];
      ChangesKeepFrame(c, h, current, before);
      var h1 := AllApplied(c, h, current, before).0;
      ChangeKeepsKey(c, h1, last.old', last.password);
      FrameInTurn(h, h1, AllApplied(c, h, current, changes).0);
      FrameOfItself(h1);
    }
  }

  lemma FrameOfItself(h: Octets)
    requires |h| == HEADER_SIZE
    ensures SameFrame(h, h)
  {
  }

  lemma FrameInTurn(h: Octets, r: Octets, s: Octets)
    requires |h| == |r| == |s| == HEADER_SIZE && (SameFrame(h, r) && SameFrame(r, s))
    ensures SameFrame(h, s)
  {
  }

  /** The same after any honest changes, for the latest password. */
  lemma OpensExactlyAfterChanges(c: Crypto, random: Octets, first: Octets, bits: int, changes: seq<Change>,
                                 q: Octets, limit: bv32)
    requires Sized(c) && |random| == HEADER_SIZE
    requires Honest(c, Generated(c, random, first, bits), first, changes)
    ensures var (r, p) := AllApplied(c, Generated(c, random, first, bits), first, changes);
            var code := ReadUint32LE(random[12..16]);
            var n := GetMainIteration(code, Clamped(bits));
            Opens(c, r, q, limit) <==>
            Clamped(bits) <= limit && c.kdf(c.hash(q), random[..12], n, 32) == c.kdf(c.hash(p), random[..12], n, 32)
  {
    var h := Generated(c, random, first, bits);
    var (r, p) := AllApplied(c, h, first, changes);
    GeneratedOpens(c, random, first, bits);
    ChangesKeepKey(c, h, first, changes);
    ChangesKeepFrame(c, h, first, changes);
    FrameFixesCodes(c, h, r, q);
    FrameFixesCodes(c, h, r, p);
    GeneratedPattern(c, random, first, bits, q);
    GeneratedPattern(c, random, first, bits, p);
    PackedIteration(ReadUint32LE(random[12..16]), Clamped(bits));
    hide Generated, PatternOf, ReadUint32LE, PackCheckCode, GetMainIteration, BitCount, AllApplied, Honest, SameFrame,
         DataKey, MainKey, CheckCode;
  }

  /** `n` is the bit count that was asked for, or the nearest one from 11 to 26; without one it is 13. */
  predicate IsBitCount(n: bv32, bits: int) {
    if bits < 0 then n == 13
    else (bits < 11 ==> n == 11) && (bits > 26 ==> n == 26) && (11 <= bits <= 26 ==> n == bits as bv32)
  }

  lemma ClampedIsBitCount(bits: int)
    ensures IsBitCount(Clamped(bits), bits)
  {
  }

  /** A new header holds that bit count. */
  lemma BitsAsAsked(c: Crypto, random: Octets, password: Octets, bits: int)
    requires Sized(c) && |random| == HEADER_SIZE
    ensures IsBitCount(BitCount(c, Generated(c, random, password, bits)), bits)
  {
    hide Generated, BitCount, Clamped, IsBitCount, Iv, XorPattern, MainSalt, MainCode;
    GeneratedOpens(c, random, password, bits);
    ClampedIsBitCount(bits);
  }

  // ---- The layout of the header ----

  /** Byte for byte: the random bytes stay, except for the code, with the bit count packed into it and
      masked by what the salts derive, and the check pattern. */
  lemma GeneratedLayout(c: Crypto, random: Octets, password: Octets, bits: int)
    requires Sized(c) && |random| == HEADER_SIZE
    ensures var h := Generated(c, random, password, bits);
            var (code, b) := (ReadUint32LE(random[12..16]), Clamped(bits));
            && h[..12] == random[..12] && h[48..] == random[48..]
            && h[12..16] == WriteUint32LE(Masked(PackCheckCode(code, b),
                                                 ReadUint32LE(c.kdf(random[48..60], random[..12], 1001, 4))))
            && h[16..48] == c.kdf(c.hash(password), random[..12], GetMainIteration(code, b), 32)
  {
    var h1 := WithCode(c, random, Clamped(bits));
    var h := Generated(c, random, password, bits);
    var w := WriteUint32LE(StoredCode(c, random, Clamped(bits)));
    GeneratedPattern(c, random, password, bits, password);
    GeneratedOpens(c, random, password, bits);
    PackedIteration(ReadUint32LE(random[12..16]), Clamped(bits));
    var x := PatternOf(c, h1, password);
    hide ReadUint32LE, WriteUint32LE, PatternOf, GetMainIteration, BitCount, Clamped, Masked, PackCheckCode, CheckCode;
    SplicedInside(random, 12, w);
    SplicedOutside(random, 12, w, 0, 12);
    SplicedOutside(random, 12, w, 48, HEADER_SIZE);
    SplicedOutside(h1, 16, x, 0, 12);
    SplicedOutside(h1, 16, x, 12, 16);
    SplicedOutside(h1, 16, x, 48, HEADER_SIZE);
    hide Splice;
  }

  /** The data key, from the bytes of any header: what the password derives from the main salt, with as
      many iterations as the main code and the bit count say, and the pattern laid over it. */
  lemma KeyOfHeader(c: Crypto, h: Octets, password: Octets)
    requires Sized(c) && |h| == HEADER_SIZE
    ensures var check := Masked(ReadUint32LE(h[12..16]), ReadUint32LE(c.kdf(h[48..60], h[..12], 1001, 4)));
            var b := UnpackBits(check);
            && BitCount(c, h) == b && Iv(h) == h[64..80]
            && DataKey(c, h, password) ==
               Xor(c.kdf(password, h[48..60], GetMainIteration(ReadUint32LE(h[60..64]), b), 32), h[80..112])
  {
    hide ReadUint32LE, Xor, Masked, UnpackBits, GetMainIteration;
  }

  // ---- The object ----

  /** The key and IV of the cipher. */
  class ChaChaFileEncryption {
    var key: Octets
    var iv: Octets

    constructor ()
    {
      key, iv := [], [];
    }

    /** Copy bytes into the header. */
    static method Store(header: array<octet>, at: nat, bytes: Octets)
      requires at + |bytes| <= header.Length
      modifies header
      ensures header[..] == Splice(old(header[..]), at, bytes)
    {
      forall i | 0 <= i < |bytes| { header[at + i] := bytes[i]; }
    }

    method GenerateHeader(header: array<octet>, random: Octets, password: Octets, bits: int, c: Crypto)
      requires Sized(c) && header.Length == HEADER_SIZE == |random|
      modifies this, header
      ensures header[..] == Generated(c, random, password, bits)
      ensures key == DataKey(c, header[..], password) && iv == Iv(header[..])
    {
      GeneratedKey(c, random, password, bits);
      GeneratedOpens(c, random, password, bits);
      hide GetMainIteration, Xor, DataKey, PatternOf, StoredCode, PasswordMatches, BitCount, Clamped, WriteUint32LE;
      Store(header, 0, random);
      assert header[..] == random by { SplicedInside(old(header[..]), 0, random); }
      Store(header, 12, WriteUint32LE(StoredCode(c, header[..], Clamped(bits))));
      Store(header, 16, PatternOf(c, header[..], password));
      key := Xor(c.kdf(password, MainSalt(header[..]), GetMainIteration(MainCode(header[..]), Clamped(bits)),
                       KEY_SIZE), XorPattern(header[..]));
      iv := Iv(header[..]);
    }

    static method GetEncryptionKey(header: array<octet>, password: Octets, limit: bv32, c: Crypto)
        returns (ok: bool, k: Octets)
      requires Sized(c) && header.Length == HEADER_SIZE
      ensures ok == Opens(c, header[..], password, limit)
      ensures k == if ok then DataKey(c, header[..], password) else []
    {
      var h := header[..];
      if BitCount(c, h) > limit || PatternOf(c, h, password) != CheckPattern(h) {
        return false, [];
      }
      k := Xor(MainKey(c, h, password), XorPattern(h));
      ok := true;
    }

    /** Without a limit the default one holds. */
    method Open(header: array<octet>, password: Octets, limit: int, c: Crypto) returns (ok: bool)
      requires Sized(c) && header.Length == HEADER_SIZE && limit < 0x8000_0000
      modifies this
      ensures ok == Opens(c, header[..], password, if limit < 0 then OPEN_DEFAULT else limit as bv32)
      ensures if ok then key == DataKey(c, header[..], password) && iv == Iv(header[..])
              else key == old(key) && iv == old(iv)
    {
      var k;
      ok, k := GetEncryptionKey(header, password, if limit < 0 then OPEN_DEFAULT else limit as bv32, c);
      if ok {
        key, iv := k, header[64..80];
      }
    }

    /** A failed change leaves the header alone. */
    static method ChangePassword(header: array<octet>, change: Change, c: Crypto) returns (ok: bool)
      requires Sized(c) && header.Length == HEADER_SIZE
      modifies header
      ensures ok == Opens(c, old(header[..]), change.old', change.limit)
      ensures header[..] == if ok then Changed(c, old(header[..]), change.old', change.password) else old(header[..])
    {
      var k;
      ok, k := GetEncryptionKey(header, change.old', change.limit, c);
      hide Opens, DataKey, MainKey, PatternOf, Xor;
      if ok {
        Store(header, 80, Xor(MainKey(c, header[..], change.password), k));
        Store(header, 16, PatternOf(c, header[..], change.password));
      }
    }
  }
}
