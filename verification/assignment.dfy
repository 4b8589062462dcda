/** Deterministic hash bucketing of users into arms "A" and "B".
    MD5 itself is a foreign call: the model receives the hex digest of `str(user_id)`. */
module Assignment {
  import opened Frames

  /** Number of leading hex digits read from the digest. */
  const PrefixLength: nat := 8
  /** Length of an MD5 hex digest. */
  const DigestLength: nat := 32

  predicate IsHexChar(c: char) {
    '0' <= c <= '9' || 'a' <= c <= 'f'
  }

  predicate IsHex(s: string) {
    forall i :: 0 <= i < |s| ==> IsHexChar(s[i])
  }

  /** The shape of `hashlib.md5(...).hexdigest()`: 32 lower-case hex digits. */
  predicate IsHexDigest(d: string) {
    |d| == DigestLength && IsHex(d)
  }

  function DigitValue(c: char): (d: nat)
    requires IsHexChar(c)
    ensures d < 16
  {
    if c <= '9' then c as int - '0' as int else c as int - 'a' as int + 10
  }

  function HexChar(d: nat): (c: char)
    requires d < 16
    ensures IsHexChar(c) && DigitValue(c) == d
  {
    if d < 10 then ('0' as int + d) as char else ('a' as int + d - 10) as char
  }

  function Pow16(n: nat): (p: nat)
    ensures p >= 1
  {
    if n == 0 then 1 else 16 * Pow16(n - 1)
  }

  /** 16^8, the normaliser of the bucket. */
  lemma Pow16Prefix()
    ensures Pow16(PrefixLength) == 0x1_0000_0000
  {
    assert Pow16(4) == 0x1_0000 by {
      assert Pow16(2) == 256;
    }
    assert Pow16(6) == 0x100_0000;
  }

  /** `int(s, 16)` for a string of hex digits: below 16^|s|. */
  function HexValue(s: string): (v: nat)
    requires IsHex(s)
    ensures v < Pow16(|s|)
  {
    if s == [] then 0 else HexValue(s[..|s| - 1]) * 16 + DigitValue(s[|s| - 1])
  }

  /** The `width`-digit hex rendering of v, most significant digit first. */
  function ToHex(v: nat, width: nat): (s: string)
    requires v < Pow16(width)
    ensures |s| == width && IsHex(s)
  {
    if width == 0 then [] else ToHex(v / 16, width - 1) + [HexChar(v % 16)]
  }

  /** Reading back a rendering gives the number rendered. */
  lemma {:induction false} HexRoundTrip(v: nat, width: nat)
    requires v < Pow16(width)
    ensures HexValue(ToHex(v, width)) == v
  {
    if width > 0 {
      var s := ToHex(v, width);
      HexRoundTrip(v / 16, width - 1);
      assert s[..|s| - 1] == ToHex(v / 16, width - 1);
    }
  }

  /** Rendering a parsed string gives the string back: `int(_, 16)` loses nothing. */
  lemma {:induction false} HexRoundTripBack(s: string)
    requires IsHex(s)
    ensures ToHex(HexValue(s), |s|) == s
  {
    if s != [] {
      var p := s[..|s| - 1];
      HexRoundTripBack(p);
      var v := HexValue(s);
      assert v / 16 == HexValue(p) && v % 16 == DigitValue(s[|s| - 1]);
      assert HexChar(DigitValue(s[|s| - 1])) == s[|s| - 1];
      assert s == p + [s[|s| - 1]];
    }
  }

  /** `int(digest[:8], 16) / 16**8`: a point of the unit interval [0, 1). */
  function Bucket(digest: string): (b: real)
    requires IsHexDigest(digest)
    ensures 0.0 <= b < 1.0
  {
    var v := HexValue(digest[..PrefixLength]);
    var p := Pow16(PrefixLength);
    assert v as real < p as real;
    v as real / p as real
  }

  /** Every point k / 2^32 of [0, 1) is the bucket of some digest: the bucket resolves the
      unit interval in steps of 2^-32. */
  lemma BucketReachesGrid(k: nat)
    requires k < 0x1_0000_0000
    ensures exists d :: IsHexDigest(d) && Bucket(d) == k as real / 0x1_0000_0000 as real
  {
    Pow16Prefix();
    var zeros := seq(DigestLength - PrefixLength, _ => '0');
    var d := ToHex(k, PrefixLength) + zeros;
    assert d[..PrefixLength] == ToHex(k, PrefixLength);
    HexRoundTrip(k, PrefixLength);
    assert IsHexDigest(d);
  }

  /** `assign_variant`: arm "A" when the bucket falls below the split, "B" otherwise. */
  function AssignVariant(digest: string, split: real): (v: string)
    requires IsHexDigest(digest)
    ensures v == "A" || v == "B"
    ensures v == "A" <==> Bucket(digest) < split
  {
    if Bucket(digest) < split then "A" else "B"
  }

  /** A split of 1 or more puts everyone in "A"; a split of 0 or less everyone in "B". */
  lemma ExtremeSplits(digest: string, split: real)
    requires IsHexDigest(digest)
    ensures split >= 1.0 ==> AssignVariant(digest, split) == "A"
    ensures split <= 0.0 ==> AssignVariant(digest, split) == "B"
  {
  }

  /** Raising the split never moves a user out of "A". */
  lemma MonotoneInSplit(digest: string, s: real, s': real)
    requires IsHexDigest(digest) && s <= s'
    ensures AssignVariant(digest, s) == "A" ==> AssignVariant(digest, s') == "A"
  {
  }

  /** The user id column, as `int(x)` reads it; ids are integer cells. */
  predicate IntegerIds(df: Frame) {
    "user_id" in df.cols ==>
      forall i :: 0 <= i < |df.cols["user_id"]| ==> df.cols["user_id"][i].Int?
  }

  /** `assign_variants`: a copy of the frame with a `variant` column, row by row
      `assign_variant(user_id, split)`; `md5Hex(u)` is the hex MD5 digest of `str(u)`. */
  function AssignVariants(df: Frame, split: real, md5Hex: int -> string): (r: Result<Frame>)
    requires df.Valid() && IntegerIds(df)
    requires forall u :: IsHexDigest(md5Hex(u))
    ensures r.Err? <==> "user_id" !in df.cols
    ensures r.Err? ==> r.error == MissingColumn("user_id")
    ensures r.Ok? ==> && r.value.Valid()
                      && r.value.height == df.height
                      && r.value.cols.Keys == df.cols.Keys + {"variant"}
                      && (forall c | c in df.cols && c != "variant" :: r.value.cols[c] == df.cols[c])
    ensures r.Ok? ==> forall i :: 0 <= i < df.height ==>
                        r.value.cols["variant"][i]
                        == Str(AssignVariant(md5Hex(df.cols["user_id"][i].i), split))
  {
    if "user_id" !in df.cols then Err(MissingColumn("user_id"))
    else
      var ids := df.cols["user_id"];
      Ok(df.WithColumn("variant",
           seq(df.height, i requires 0 <= i < df.height =>
               Str(AssignVariant(md5Hex(ids[i].i), split)))))
  }

  /** Stability: two rows carrying the same user id land in the same arm, wherever they sit. */
  lemma SameUserSameArm(df: Frame, split: real, md5Hex: int -> string, i: nat, j: nat)
    requires df.Valid() && IntegerIds(df) && forall u :: IsHexDigest(md5Hex(u))
    requires "user_id" in df.cols && i < df.height && j < df.height
    requires df.cols["user_id"][i] == df.cols["user_id"][j]
    ensures AssignVariants(df, split, md5Hex).Ok?
    ensures var f := AssignVariants(df, split, md5Hex).value;
            f.cols["variant"][i] == f.cols["variant"][j]
  {
  }
}
