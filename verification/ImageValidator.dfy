/**
 The streaming image check of `internal/gateway/server.go`, which holds back the last twelve bytes of a
 body until it has seen all of it, against the whole-body check of `internal/gateway/anonymous_image.go`.
 */
module ImageValidator {
  newtype Byte = x: int | 0 <= x < 256

  datatype Media = Jpeg | Png | Webp | Gif | OtherMedia

  /** Three media types are checked as they stream; a GIF only as a whole, and anything else not at all. */
  predicate Streamed(media: Media) {
    media.Jpeg? || media.Png? || media.Webp?
  }

  const TAIL_SIZE: nat := 12

  // The PNG signature (section 5.2 of the W3C PNG Specification) and the IEND chunk.
  const PNG_SIGNATURE: seq<Byte> := [0x89, 0x50, 0x4E, 0x47, 0x0D, 0x0A, 0x1A, 0x0A]
  const PNG_IEND: seq<Byte> := [0, 0, 0, 0, 0x49, 0x45, 0x4E, 0x44, 0xAE, 0x42, 0x60, 0x82]
  const GIF87A: seq<Byte> := [0x47, 0x49, 0x46, 0x38, 0x37, 0x61]
  const GIF89A: seq<Byte> := [0x47, 0x49, 0x46, 0x38, 0x39, 0x61]
  const RIFF: seq<Byte> := [0x52, 0x49, 0x46, 0x46]
  const WEBP: seq<Byte> := [0x57, 0x45, 0x42, 0x50]

  function Uint32(b: seq<Byte>): nat
    requires |b| == 4
  {
    b[0] as nat + 256 * (b[1] as nat) + 65536 * (b[2] as nat) + 16777216 * (b[3] as nat)
  }

  /** The whole-body check. */
  predicate ValidFullImage(media: Media, data: seq<Byte>) {
    var n := |data|;
    match media
    case Jpeg => n >= 4 && data[0] == 0xFF && data[1] == 0xD8 && data[n - 2] == 0xFF && data[n - 1] == 0xD9
    case Png => n >= 20 && data[..8] == PNG_SIGNATURE && data[n - 12..] == PNG_IEND
    case Webp => n >= 12 && data[..4] == RIFF && data[8..12] == WEBP && Uint32(data[4..8]) + 8 == n
    case Gif => n >= 14 && (data[..6] == GIF87A || data[..6] == GIF89A) && data[n - 1] == 0x3B
    case OtherMedia => false
  }

  /** The streaming check, on the first bytes, the last bytes and the length. */
  predicate Validate(media: Media, prefix: seq<Byte>, tail: seq<Byte>, total: nat) {
    match media
    case Jpeg =>
      && |prefix| >= 2 && |tail| >= 2 && prefix[0] == 0xFF && prefix[1] == 0xD8
      && tail[|tail| - 2] == 0xFF && tail[|tail| - 1] == 0xD9
    case Png => |prefix| >= |PNG_SIGNATURE| && prefix[..|PNG_SIGNATURE|] == PNG_SIGNATURE && |tail| == |PNG_IEND| && tail == PNG_IEND
    case Webp =>
      |prefix| >= 12 && prefix[..4] == RIFF && prefix[8..12] == WEBP && Uint32(prefix[4..8]) + 8 == total
    case _ => true
  }

  function Head(data: seq<Byte>): seq<Byte> {
    if |data| <= TAIL_SIZE then data else data[..TAIL_SIZE]
  }

  function Last(data: seq<Byte>): seq<Byte> {
    if |data| <= TAIL_SIZE then data else data[|data| - TAIL_SIZE..]
  }

  lemma SignatureHasNoZero(i: nat)
    requires i < 8
    ensures PNG_SIGNATURE[i] != 0
  {
    assert i == 0 || i == 1 || i == 2 || i == 3 || i == 4 || i == 5 || i == 6 || i == 7;
  }

  /** The signature cannot run into the trailer: none of its bytes is zero, and the trailer starts with one. */
  lemma PngPartsDoNotOverlap(data: seq<Byte>)
    requires |data| >= 12 && data[..8] == PNG_SIGNATURE && data[|data| - 12..] == PNG_IEND
    ensures |data| >= 20
  {
    var o := |data| - 12;
    assert data[o] == data[o..][0] == PNG_IEND[0];
    if o < 8 {
      assert data[o] == data[..8][o] == PNG_SIGNATURE[o];
      SignatureHasNoZero(o);
    }
  }

  /** A JPEG's two markers cannot share a byte either. */
  lemma JpegPartsDoNotOverlap(data: seq<Byte>)
    requires |data| >= 2 && data[0] == 0xFF && data[1] == 0xD8 && data[|data| - 2] == 0xFF && data[|data| - 1] == 0xD9
    ensures |data| >= 4
  {
  }

  // ---- the formats, byte by byte --------------------------------------------------------------

  /** The body starts and ends so, with anything between. */
  ghost predicate Framed(first: seq<Byte>, last: seq<Byte>, data: seq<Byte>) {
    exists middle :: data == first + middle + last
  }

  lemma FramedIs(first: seq<Byte>, last: seq<Byte>, data: seq<Byte>)
    ensures Framed(first, last, data) <==>
      |data| >= |first| + |last| && data[..|first|] == first && data[|data| - |last|..] == last
  {
    if |data| >= |first| + |last| && data[..|first|] == first && data[|data| - |last|..] == last {
      assert data == first + data[|first|..|data| - |last|] + last;
    }
  }

  /** A body passes exactly if it has its format's frame: a JPEG the two markers, a PNG the signature and the IEND
      chunk, a GIF one of two headers and the trailer, and a WebP the RIFF header with its own size in it. */
  lemma ValidExactly(data: seq<Byte>)
    ensures ValidFullImage(Jpeg, data) <==> Framed([0xFF, 0xD8], [0xFF, 0xD9], data)
    ensures ValidFullImage(Png, data) <==>
      Framed([137, 80, 78, 71, 13, 10, 26, 10], [0, 0, 0, 0, 73, 69, 78, 68, 174, 66, 96, 130], data)
    ensures ValidFullImage(Gif, data) <==>
      |data| >= 14 && (Framed([71, 73, 70, 56, 55, 97], [59], data) || Framed([71, 73, 70, 56, 57, 97], [59], data))
    ensures ValidFullImage(Webp, data) <==>
      && |data| >= 12 && data[..4] == [82, 73, 70, 70] && data[8..12] == [87, 69, 66, 80]
      && data[4] as int + 256 * data[5] as int + 65536 * data[6] as int + 16777216 * data[7] as int == |data| - 8
    ensures !ValidFullImage(OtherMedia, data)
  {
    FramedIs([0xFF, 0xD8], [0xFF, 0xD9], data);
    FramedIs([137, 80, 78, 71, 13, 10, 26, 10], [0, 0, 0, 0, 73, 69, 78, 68, 174, 66, 96, 130], data);
    FramedIs([71, 73, 70, 56, 55, 97], [59], data);
    FramedIs([71, 73, 70, 56, 57, 97], [59], data);
    if |data| >= 4 {
      assert data[..2] == [data[0], data[1]];
      assert data[|data| - 2..] == [data[|data| - 2], data[|data| - 1]];
      assert data[|data| - 1..] == [data[|data| - 1]];
    }
    hide Framed;
  }

  /** Both checks agree on every body of the three media types. */
  lemma ChecksAgree(media: Media, data: seq<Byte>)
    requires Streamed(media)
    ensures Validate(media, Head(data), Last(data), |data|) <==> ValidFullImage(media, data)
  {
    match media
    case Jpeg =>
      if Validate(media, Head(data), Last(data), |data|) {
        JpegPartsDoNotOverlap(data);
      }
    case Png =>
      if |data| >= 12 {
        assert Head(data)[..8] == data[..8];
        assert Last(data) == data[|data| - 12..];
        if data[..8] == PNG_SIGNATURE && data[|data| - 12..] == PNG_IEND {
          PngPartsDoNotOverlap(data);
        }
      }
    case Webp =>
      if |data| >= 12 {
        assert Head(data)[..4] == data[..4] && Head(data)[4..8] == data[4..8] && Head(data)[8..12] == data[8..12];
      }
  }

  /** How the destination takes a write: all of it, or an error after some of it. */
  datatype Sink = Accepts | Fails(taken: nat)

  class ImageStreamValidator {
    const media: Media
    const passthrough: bool
    var prefix: seq<Byte>
    var tail: seq<Byte>
    var total: nat
    var out: seq<Byte>

    /** Everything passed to `Write`, and whether the destination has failed. */
    ghost var input: seq<Byte>
    ghost var failed: bool

    ghost predicate Valid()
      reads this
    {
      && passthrough == !Streamed(media)
      && prefix == Head(input) && total == |input|
      && (passthrough && !failed ==> out == input)
      && (!passthrough && !failed ==> tail == Last(input) && out + tail == input)
    }

    constructor (media: Media)
      ensures Valid() && input == [] && out == [] && !failed && this.media == media
    {
      this.media := media;
      passthrough := !Streamed(media);
      prefix, tail, total, out := [], [], 0, [];
      input, failed := [], false;
    }

    method Emit(p: seq<Byte>, sink: Sink) returns (ok: bool)
      modifies this`out, this`failed
      ensures ok == sink.Accepts?
      ensures ok ==> out == old(out) + p && failed == old(failed)
      ensures !ok ==> failed && old(out) <= out <= old(out) + p
    {
      if sink.Accepts? {
        out := out + p;
        return true;
      }
      var taken := if sink.taken <= |p| then sink.taken else |p|;
      out := out + p[..taken];
      failed := true;
      return false;
    }

    /** Counts the bytes and keeps the first twelve. */
    method RememberHead(p: seq<Byte>)
      requires Valid()
      modifies this`prefix, this`total, this`input
      ensures input == old(input) + p && prefix == Head(input) && total == |input|
    {
      total := total + |p|;
      if |prefix| < TAIL_SIZE {
        var need := TAIL_SIZE - |prefix|;
        if need > |p| {
          need := |p|;
        }
        prefix := prefix + p[..need];
      }
      input := input + p;
    }

    /** Takes the next part of the body. */
    method Write(p: seq<Byte>, sink: Sink) returns (n: nat, ok: bool)
      requires Valid()
      modifies this
      ensures Valid() && input == old(input) + p
      ensures ok ==> n == |p| && failed == old(failed)
      ensures !ok ==> n <= |p| && failed && sink.Fails?
      ensures sink.Accepts? ==> ok
    {
      if |p| == 0 {
        assert input + p == input;
        return 0, true;
      }
      RememberHead(p);
      if passthrough {
        ok := Emit(p, sink);
        return if ok then |p| else if sink.taken <= |p| then sink.taken else |p|, ok;
      }
      var combined := tail + p;
      if |combined| <= TAIL_SIZE {
        tail := combined;
        return |p|, true;
      }
      var flush := |combined| - TAIL_SIZE;
      ok := Emit(combined[..flush], sink);
      if !ok {
        return 0, false;
      }
      tail := combined[flush..];
      return |p|, true;
    }

    /** Ends the body: a good one gets its last bytes, a bad one never does. */
    method Finish(sink: Sink) returns (ok: bool)
      requires Valid() && !failed
      modifies this
      ensures input == old(input)
      ensures Streamed(media) ==> (ok <==> ValidFullImage(media, input) && sink.Accepts?)
      ensures !Streamed(media) ==> ok
      ensures ok ==> out == input
      ensures Streamed(media) && !ValidFullImage(media, input) ==> out == old(out) == input[..|input| - |Last(input)|]
    {
      if passthrough {
        return true;
      }
      ChecksAgree(media, input);
      assert out == input[..|input| - |Last(input)|];
      if !Validate(media, prefix, tail, total) {
        return false;
      }
      ok := Emit(tail, sink);
    }
  }

  function Concat(parts: seq<seq<Byte>>): seq<Byte> {
    if |parts| == 0 then [] else Concat(parts[..|parts| - 1]) + parts[|parts| - 1]
  }

  /** However a body is split into writes, the stream check accepts it exactly when the whole-body check does;
      what comes out is then the body, and otherwise the body without its last twelve bytes. */
  method CheckInParts(media: Media, parts: seq<seq<Byte>>) returns (ok: bool, out: seq<Byte>)
    requires Streamed(media)
    ensures ok <==> ValidFullImage(media, Concat(parts))
    ensures ok ==> out == Concat(parts)
    ensures !ok ==> out == Concat(parts)[..|Concat(parts)| - |Last(Concat(parts))|]
  {
    var v := new ImageStreamValidator(media);
    for i := 0 to |parts|
      invariant v.Valid() && v.media == media && !v.failed && v.input == Concat(parts[..i])
    {
      assert parts[..i + 1][..i] == parts[..i];
      var n, written := v.Write(parts[i], Accepts);
    }
    assert parts[..|parts|] == parts;
    ok := v.Finish(Accepts);
    out := v.out;
  }
}
