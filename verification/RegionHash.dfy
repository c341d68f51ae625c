/** Hashing a region of an endpoint for verification: files and device memory
    in bounded pieces through a temporary buffer, everything else in one go. */
module RegionHash {
  import opened Basics
  import Crc32c
  import Sha256
  import LittleEndian

  datatype Mode = NoVerification | Crc | Sha

  datatype Kind = File | Device | CpuAddressable

  /** What can be read through an endpoint: for a file its whole content, for
      memory what lies at its base address. */
  datatype Endpoint = Endpoint(kind: Kind, content: Bytes, descOffset: nat)

  /** Where the hash of `[offset, offset + len)` is read. */
  function HashedAt(ep: Endpoint, offset: nat): nat {
    if ep.kind == File then ep.descOffset + offset else offset
  }

  /** Where a copy of `[offset, offset + len)` reads or writes. */
  function CopiedAt(ep: Endpoint, offset: nat): nat { offset }

  /** The digest of a region, whatever way it is read. */
  ghost function RegionDigest(mode: Mode, region: Bytes): Bytes {
    if mode == NoVerification || region == [] then Zeros(32)
    else if mode == Crc then LittleEndian.Put(Crc32c.Crc(region), 4) + Zeros(28)
    else Sha256.Digest(Sha256.FIPS, Sha256.IV, region, Wrap(8 * |region|))
  }

  /** For every region the standard covers, the digest is SHA-256. */
  lemma RegionDigestIsSha(region: Bytes)
    requires 0 < |region| && 8 * |region| < TWO64
    ensures RegionDigest(Sha, region) == Sha256.Sha(region)
  {
  }

  /** In CRC mode the digest is the CRC32C, least significant byte first, and 28
      zero bytes. */
  lemma RegionDigestIsCrc(region: Bytes)
    requires region != []
    ensures var d := RegionDigest(Crc, region);
      |d| == 32 && LittleEndian.Get(d[..4]) == Crc32c.Crc(region) && d[4..] == Zeros(28)
  {
    var v := Crc32c.Crc(region);
    Crc32c.CrcBounded(region);
    LittleEndian.Pow256Values();
    LittleEndian.GetPut(v, 4);
    assert RegionDigest(Crc, region)[..4] == LittleEndian.Put(v, 4);
    assert RegionDigest(Crc, region)[4..] == Zeros(28);
  }

  /** Two regions have the same digest in CRC mode exactly if they have the same
      CRC32C. */
  lemma SameDigestIffSameCrc(a: Bytes, b: Bytes)
    requires a != [] && b != []
    ensures RegionDigest(Crc, a) == RegionDigest(Crc, b) <==> Crc32c.Crc(a) == Crc32c.Crc(b)
  {
    RegionDigestIsCrc(a);
    RegionDigestIsCrc(b);
  }

  /** In CRC mode a region that was damaged, and only within 32 consecutive bits,
      has another digest. */
  lemma BurstChangesDigest(a: Bytes, b: Bytes, at: nat)
    requires a != b && |a| == |b| && Crc32c.WithinBurst(Crc32c.MessageBits(a), Crc32c.MessageBits(b), at)
    ensures RegionDigest(Crc, a) != RegionDigest(Crc, b)
  {
    SameDigestIffSameCrc(a, b);
    Crc32c.BurstDetected(a, b, at);
  }

  /** Bytes `[start, start + len)` of `content`, cut into pieces of at most
      `size`. */
  method ReadPieces(content: Bytes, start: nat, len: nat, size: nat) returns (pieces: Option<seq<Bytes>>)
    requires size > 0
    ensures pieces.Some? <==> start + len <= |content| || len == 0
    ensures pieces.Some? && len > 0 ==> Concat(pieces.value) == content[start..start + len]
  {
    var done := 0;
    var acc: seq<Bytes> := [];
    while done < len
      invariant 0 <= done <= len
      invariant done > 0 ==> start + done <= |content| && Concat(acc) == content[start..start + done]
      invariant done == 0 ==> acc == []
    {
      var n := if len - done > size then size else len - done;
      if start + done + n > |content| { return None; }
      var piece := content[start + done..start + done + n];
      ConcatSnoc(acc, piece);
      assert done > 0 ==> content[start..start + done] + piece == content[start..start + done + n];
      acc := acc + [piece];
      done := done + n;
    }
    return Some(acc);
  }

  /** The CRC object fed in pieces. */
  method CrcPieces(pieces: seq<Bytes>) returns (v: nat)
    ensures v == Crc32c.Crc(Concat(pieces))
  {
    var h := new Crc32c.Hasher();
    for i := 0 to |pieces|
      invariant h.Valid() && h.message == Concat(pieces[..i]) && fresh(h)
    {
      h.Update(pieces[i]);
      ConcatSnoc(pieces[..i], pieces[i]);
      assert pieces[..i + 1] == pieces[..i] + [pieces[i]];
    }
    assert pieces[..|pieces|] == pieces;
    v := h.Value();
  }

  method ShaPieces(pieces: seq<Bytes>) returns (d: Bytes)
    ensures var m := Concat(pieces); d == Sha256.Digest(Sha256.FIPS, Sha256.IV, m, Wrap(8 * |m|))
  {
    Sha256.StepComputes(Sha256.FIPS);
    var state := Sha256.FoldPieces(Sha256.FIPS, Sha256.IV, pieces, Sha256.Step(Sha256.FIPS));
    d := Sha256.HashBytes(Sha256.FIPS, state);
  }

  method DigestPieces(mode: Mode, pieces: seq<Bytes>) returns (d: Bytes)
    requires mode != NoVerification && Concat(pieces) != []
    ensures d == RegionDigest(mode, Concat(pieces))
  {
    if mode == Crc {
      var v := CrcPieces(pieces);
      d := LittleEndian.Put(v, 4) + Zeros(28);
    } else {
      d := ShaPieces(pieces);
    }
  }

  /** The pieces each kind of endpoint is read in. */
  method ReadRegion(ep: Endpoint, offset: nat, len: nat) returns (pieces: Option<seq<Bytes>>)
    requires 0 < len && (ep.kind != File ==> offset + len <= |ep.content|)
    ensures pieces.Some? <==> HashedAt(ep, offset) + len <= |ep.content|
    ensures pieces.Some? ==>
      Concat(pieces.value) == ep.content[HashedAt(ep, offset)..HashedAt(ep, offset) + len]
  {
    match ep.kind {
      case File =>
        pieces := ReadPieces(ep.content, ep.descOffset + offset, len, 0x10_0000);
      case Device =>
        pieces := ReadPieces(ep.content, offset, len, 0x100_0000);
      case CpuAddressable =>
        pieces := Some([ep.content[offset..offset + len]]);
        ConcatSnoc([], ep.content[offset..offset + len]);
        assert [] + pieces.value == pieces.value;
    }
  }

  /** The bytes that are hashed for a region of an endpoint; a file may be too
      short for them. */
  function RegionBytes(ep: Endpoint, offset: nat, len: nat): Option<Bytes> {
    var at := HashedAt(ep, offset);
    if at + len <= |ep.content| then Some(ep.content[at..at + len]) else None
  }

  ghost function Digester(mode: Mode): Bytes -> Bytes { r => RegionDigest(mode, r) }

  ghost function DigestOf(f: Bytes -> Bytes, region: Option<Bytes>): Result<Bytes> {
    if region.Some? then Ok(f(region.value)) else Err(IntegrityFailure)
  }

  /** The digest of the bytes that the pieces make up. */
  method DigestRegion(mode: Mode, pieces: Option<seq<Bytes>>, ghost region: Option<Bytes>) returns (r: Result<Bytes>)
    requires mode != NoVerification && (pieces.Some? <==> region.Some?)
    requires pieces.Some? ==> Concat(pieces.value) == region.value != []
    ensures r == DigestOf(Digester(mode), region)
  {
    if pieces.None? { return Err(IntegrityFailure); }
    var d := DigestPieces(mode, pieces.value);
    return Ok(d);
  }

  /** All three ways of reading agree: the result is the digest of the region,
      and only a file that is too short is an error. */
  method HashEndpointRegion(ep: Endpoint, offset: nat, len: nat, mode: Mode) returns (r: Result<Bytes>)
    requires ep.kind != File ==> offset + len <= |ep.content|
    ensures mode == NoVerification || len == 0 ==> r == Ok(Zeros(32))
    ensures mode != NoVerification && len > 0 ==> r == DigestOf(Digester(mode), RegionBytes(ep, offset, len))
  {
    if mode == NoVerification || len == 0 { return Ok(Zeros(32)); }
    var pieces := ReadRegion(ep, offset, len);
    r := DigestRegion(mode, pieces, RegionBytes(ep, offset, len));
  }

  /** The bytes that verification hashes are the bytes that were copied, for
      every content, exactly when the endpoint is not a file opened at a
      nonzero offset. */
  lemma HashedIsCopied(kind: Kind, descOffset: nat, offset: nat, len: nat, size: nat)
    requires 0 < len && descOffset + offset + len <= size
    ensures (forall content: Bytes :: |content| == size ==>
              var ep := Endpoint(kind, content, descOffset);
              content[HashedAt(ep, offset)..HashedAt(ep, offset) + len]
                == content[CopiedAt(ep, offset)..CopiedAt(ep, offset) + len])
            <==> kind != File || descOffset == 0
  {
    if kind == File && descOffset > 0 {
      var content: Bytes := seq(size, i => if i == offset then 1 else 0);
      var ep := Endpoint(kind, content, descOffset);
      assert content[offset..offset + len][0] == 1;
      assert content[descOffset + offset..descOffset + offset + len][0] == 0;
    }
  }
}
