/**
 * The placeholder resources (src/utils/placeholderGenerator.js): the
 * silent PCM WAVE file `generateSilentAudio` builds, the resource probe and
 * its fallback, the mapping that fills empty image and music fields with
 * generated ones, and the names of the downloadable resource pack.
 *
 * The WAVE header follows the RIFF "WAVE Form Definition" of the
 * Multimedia Programming Interface and Data Specifications 1.0: a 12-byte
 * RIFF header, a 24-byte `fmt ` chunk for PCM, and the `data` chunk header.
 * The generated images are canvas data URLs, drawn with `Math.random`, so
 * they are parameters here.
 */
module Placeholder {
  import opened Common

  newtype byte = x: int | 0 <= x < 256

  const SampleRate := 44100
  const NumChannels := 2
  const BytesPerSample := 2
  const HeaderSize := 44

  /** `2^(8 * width)`: the range of an unsigned little-endian field of `width` bytes. */
  function Range(width: nat): (r: nat)
    ensures r >= 1
  {
    if width == 0 then 1 else 256 * Range(width - 1)
  }

  /**
   * The `width` bytes that `setUint16`/`setUint32(offset, v, true)` store:
   * least significant first, `v` taken modulo the field's range.
   */
  function LittleEndian(v: nat, width: nat): (r: seq<byte>)
    ensures |r| == width
  {
    if width == 0 then [] else [(v % 256) as byte] + LittleEndian(v / 256, width - 1)
  }

  /** Reads an unsigned little-endian field. */
  function FromLittleEndian(bs: seq<byte>): nat {
    if bs == [] then 0 else bs[0] as nat + 256 * FromLittleEndian(bs[1..])
  }

  /** `v % (256 * p)` splits into the low byte and the rest modulo `p`. */
  lemma ModSplit(v: nat, p: nat)
    requires p >= 1
    ensures v % (256 * p) == v % 256 + 256 * ((v / 256) % p)
  {
    var q, r := v / 256, v % 256;
    var a, b := q / p, q % p;
    assert v == 256 * q + r;
    assert q == p * a + b;
    assert v == (256 * p) * a + (256 * b + r) by {
      calc {
        v;
        256 * (p * a + b) + r;
        { assert 256 * (p * a + b) == (256 * p) * a + 256 * b; }
        (256 * p) * a + (256 * b + r);
      }
    }
    assert 0 <= 256 * b + r < 256 * p;
    DivModUnique(v, 256 * p, a, 256 * b + r);
  }

  lemma DivModUnique(v: nat, m: nat, a: nat, c: nat)
    requires m > 0 && v == m * a + c && c < m
    ensures v % m == c
  {
    var q, r := v / m, v % m;
    assert m * q + r == m * a + c;
    if q > a {
      MulAtLeast(m, q - a);
      assert false;
    } else if q < a {
      MulAtLeast(m, a - q);
      assert false;
    }
  }

  lemma MulAtLeast(m: nat, k: int)
    requires k >= 1
    ensures m * k >= m
  {
  }

  /** Writing then reading a field gives the value back, modulo the field's range. */
  lemma {:induction false} LittleEndianRoundTrip(v: nat, width: nat)
    ensures FromLittleEndian(LittleEndian(v, width)) == v % Range(width)
    decreases width
  {
    if width > 0 {
      var bs := LittleEndian(v, width);
      assert bs[1..] == LittleEndian(v / 256, width - 1);
      LittleEndianRoundTrip(v / 256, width - 1);
      ModSplit(v, Range(width - 1));
    }
  }

  /** `writeString`: `setUint8(offset + i, s.charCodeAt(i))`, each code taken modulo 256. */
  function Ascii(s: string): (r: seq<byte>)
    ensures |r| == |s|
    ensures forall i :: 0 <= i < |s| ==> r[i] as int == (s[i] as int) % 256
  {
    if s == [] then [] else [((s[0] as int) % 256) as byte] + Ascii(s[1..])
  }

  /** The data chunk's size for `numSamples` sample frames: two channels of two bytes. */
  function DataSize(numSamples: nat): nat {
    numSamples * NumChannels * BytesPerSample
  }

  /** The 44-byte header `generateSilentAudio` writes: the RIFF and format tags with the first format fields, then the rest. */
  function WavHeader(numSamples: nat): seq<byte> {
    HeaderFront(numSamples) + HeaderBack(numSamples)
  }

  function HeaderFront(numSamples: nat): seq<byte> {
    Ascii("RIFF") + LittleEndian(36 + DataSize(numSamples), 4) + Ascii("WAVE")
    + Ascii("fmt ") + LittleEndian(16, 4) + LittleEndian(1, 2)
  }

  function HeaderBack(numSamples: nat): seq<byte> {
    LittleEndian(NumChannels, 2) + LittleEndian(SampleRate, 4) + LittleEndian(SampleRate * NumChannels * 2, 4)
    + LittleEndian(NumChannels * 2, 2) + LittleEndian(16, 2)
    + Ascii("data") + LittleEndian(DataSize(numSamples), 4)
  }

  lemma FrontLayout(numSamples: nat)
    ensures var f := HeaderFront(numSamples);
      |f| == 22
      && f[0..4] == Ascii("RIFF") && f[4..8] == LittleEndian(36 + DataSize(numSamples), 4)
      && f[8..12] == Ascii("WAVE") && f[12..16] == Ascii("fmt ")
      && f[16..20] == LittleEndian(16, 4) && f[20..22] == LittleEndian(1, 2)
  {
  }

  lemma BackLayout(numSamples: nat)
    ensures var b := HeaderBack(numSamples);
      |b| == 22
      && b[0..2] == LittleEndian(NumChannels, 2) && b[2..6] == LittleEndian(SampleRate, 4)
      && b[6..10] == LittleEndian(SampleRate * NumChannels * 2, 4)
      && b[10..12] == LittleEndian(NumChannels * 2, 2) && b[12..14] == LittleEndian(16, 2)
      && b[14..18] == Ascii("data") && b[18..22] == LittleEndian(DataSize(numSamples), 4)
  {
  }

  /** A slice of a concatenation that lies within one side. */
  lemma SliceOfConcat(a: seq<byte>, b: seq<byte>, i: nat, j: nat)
    requires i <= j <= |a| + |b|
    ensures j <= |a| ==> (a + b)[i..j] == a[i..j]
    ensures |a| <= i ==> (a + b)[i..j] == b[i - |a|..j - |a|]
  {
  }

  /** The header's layout, field by field, at the offsets the format fixes. */
  lemma WavHeaderLayout(numSamples: nat)
    ensures var h := WavHeader(numSamples); var dataSize := DataSize(numSamples);
      |h| == HeaderSize
      && h[0..4] == Ascii("RIFF") && h[4..8] == LittleEndian(36 + dataSize, 4)
      && h[8..12] == Ascii("WAVE") && h[12..16] == Ascii("fmt ")
      && h[16..20] == LittleEndian(16, 4) && h[20..22] == LittleEndian(1, 2)
      && h[22..24] == LittleEndian(NumChannels, 2) && h[24..28] == LittleEndian(SampleRate, 4)
      && h[28..32] == LittleEndian(SampleRate * NumChannels * 2, 4)
      && h[32..34] == LittleEndian(NumChannels * 2, 2) && h[34..36] == LittleEndian(16, 2)
      && h[36..40] == Ascii("data") && h[40..44] == LittleEndian(dataSize, 4)
  {
    var f, b := HeaderFront(numSamples), HeaderBack(numSamples);
    FrontLayout(numSamples);
    BackLayout(numSamples);
    SliceOfConcat(f, b, 0, 4);
    SliceOfConcat(f, b, 4, 8);
    SliceOfConcat(f, b, 8, 12);
    SliceOfConcat(f, b, 12, 16);
    SliceOfConcat(f, b, 16, 20);
    SliceOfConcat(f, b, 20, 22);
    SliceOfConcat(f, b, 22, 24);
    SliceOfConcat(f, b, 24, 28);
    SliceOfConcat(f, b, 28, 32);
    SliceOfConcat(f, b, 32, 34);
    SliceOfConcat(f, b, 34, 36);
    SliceOfConcat(f, b, 36, 40);
    SliceOfConcat(f, b, 40, 44);
  }

  /** The fields a reader of the header sees. */
  datatype WavInfo = WavInfo(
    riffSize: nat, fmtSize: nat, format: nat, channels: nat, sampleRate: nat,
    byteRate: nat, blockAlign: nat, bitsPerSample: nat, dataSize: nat)

  /** Reads a 44-byte PCM header: None unless the four chunk tags are where the format puts them. */
  function ParseWavHeader(h: seq<byte>): Option<WavInfo> {
    if |h| < HeaderSize || h[0..4] != Ascii("RIFF") || h[8..12] != Ascii("WAVE")
       || h[12..16] != Ascii("fmt ") || h[36..40] != Ascii("data") then None
    else Some(WavInfo(
      FromLittleEndian(h[4..8]), FromLittleEndian(h[16..20]), FromLittleEndian(h[20..22]),
      FromLittleEndian(h[22..24]), FromLittleEndian(h[24..28]), FromLittleEndian(h[28..32]),
      FromLittleEndian(h[32..34]), FromLittleEndian(h[34..36]), FromLittleEndian(h[40..44])))
  }

  lemma Ranges()
    ensures Range(2) == 0x1_0000 && Range(4) == 0x1_0000_0000
  {
    assert Range(1) == 256;
    assert Range(3) == 0x100_0000;
  }

  /**
   * The header describes PCM, 2 channels, 44100 Hz, 16 bits, byte rate
   * 176400, block align 4, and the data size `numSamples * 4`; the two
   * sizes wrap modulo 2^32 as `setUint32` stores them.
   */
  lemma WavHeaderRoundTrip(numSamples: nat)
    ensures var dataSize := DataSize(numSamples);
      ParseWavHeader(WavHeader(numSamples)) == Some(WavInfo(
        (36 + dataSize) % 0x1_0000_0000, 16, 1, 2, 44100, 176400, 4, 16, dataSize % 0x1_0000_0000))
  {
    var dataSize := DataSize(numSamples);
    var h := WavHeader(numSamples);
    WavHeaderLayout(numSamples);
    Ranges();
    FieldReads(h, 4, 8, 36 + dataSize, 4);
    FieldReads(h, 16, 20, 16, 4);
    FieldReads(h, 20, 22, 1, 2);
    FieldReads(h, 22, 24, NumChannels, 2);
    FieldReads(h, 24, 28, SampleRate, 4);
    FieldReads(h, 28, 32, SampleRate * NumChannels * 2, 4);
    FieldReads(h, 32, 34, NumChannels * 2, 2);
    FieldReads(h, 34, 36, 16, 2);
    FieldReads(h, 40, 44, dataSize, 4);
    assert FromLittleEndian(h[16..20]) == 16 && FromLittleEndian(h[20..22]) == 1;
    assert FromLittleEndian(h[22..24]) == 2 && FromLittleEndian(h[24..28]) == 44100;
    assert FromLittleEndian(h[28..32]) == 176400 && FromLittleEndian(h[32..34]) == 4;
    assert FromLittleEndian(h[34..36]) == 16;
  }

  /** One field of the header reads back as its value modulo the field's range. */
  lemma FieldReads(h: seq<byte>, lo: nat, hi: nat, v: nat, width: nat)
    requires lo <= hi <= |h| && h[lo..hi] == LittleEndian(v, width)
    ensures FromLittleEndian(h[lo..hi]) == v % Range(width)
  {
    LittleEndianRoundTrip(v, width);
  }

  /** Stores `bytes` at `offset`, one `setUint8` at a time; nothing else changes. */
  method SetBytes(buf: array<byte>, offset: nat, bytes: seq<byte>)
    requires offset + |bytes| <= buf.Length
    modifies buf
    ensures forall k :: 0 <= k < buf.Length ==>
      buf[k] == if offset <= k < offset + |bytes| then bytes[k - offset] else old(buf[k])
  {
    var i := 0;
    while i < |bytes|
      invariant 0 <= i <= |bytes|
      invariant forall k :: 0 <= k < buf.Length ==>
        buf[k] == if offset <= k < offset + i then bytes[k - offset] else old(buf[k])
    {
      buf[offset + i] := bytes[i];
      i := i + 1;
    }
  }

  /** Writes the next header field: the header's first `pos` bytes are in place before, `pos + |bytes|` after. */
  method WriteField(buf: array<byte>, ghost h: seq<byte>, pos: nat, bytes: seq<byte>)
    requires pos + |bytes| <= |h| && pos + |bytes| <= buf.Length
    requires buf[..pos] == h[..pos] && h[pos..pos + |bytes|] == bytes
    modifies buf
    ensures buf[..pos + |bytes|] == h[..pos + |bytes|]
    ensures forall k :: pos + |bytes| <= k < buf.Length ==> buf[k] == old(buf[k])
  {
    SetBytes(buf, pos, bytes);
    assert forall k :: 0 <= k < pos ==> buf[k] == h[k] by {
      forall k | 0 <= k < pos
        ensures buf[k] == h[k]
      {
        assert old(buf[..pos])[k] == h[..pos][k];
      }
    }
  }

  /** The header writes of `generateSilentAudio`, in the source's order; the rest of the buffer is untouched. */
  method WriteWavHeader(buf: array<byte>, numSamples: nat)
    requires HeaderSize <= buf.Length
    modifies buf
    ensures buf[..HeaderSize] == WavHeader(numSamples)
    ensures forall k :: HeaderSize <= k < buf.Length ==> buf[k] == old(buf[k])
  {
    ghost var h := WavHeader(numSamples);
    WavHeaderLayout(numSamples);
    var dataSize := numSamples * NumChannels * 2;
    WriteField(buf, h, 0, Ascii("RIFF"));
    WriteField(buf, h, 4, LittleEndian(36 + dataSize, 4));
    WriteField(buf, h, 8, Ascii("WAVE"));
    WriteField(buf, h, 12, Ascii("fmt "));
    WriteField(buf, h, 16, LittleEndian(16, 4));
    WriteField(buf, h, 20, LittleEndian(1, 2));
    WriteField(buf, h, 22, LittleEndian(NumChannels, 2));
    WriteField(buf, h, 24, LittleEndian(SampleRate, 4));
    WriteField(buf, h, 28, LittleEndian(SampleRate * NumChannels * 2, 4));
    WriteField(buf, h, 32, LittleEndian(NumChannels * 2, 2));
    WriteField(buf, h, 34, LittleEndian(16, 2));
    WriteField(buf, h, 36, Ascii("data"));
    WriteField(buf, h, 40, LittleEndian(dataSize, 4));
    assert h[..HeaderSize] == h;
  }

  /** `generateSilentAudio`'s default length in seconds, used when no duration is passed. */
  const DefaultSilentSeconds := 30

  /**
   * `generateSilentAudio(duration = 30)`: a buffer of 44 + 4 * 44100 * seconds
   * bytes, the header above, then every sample written as a 16-bit zero.
   */
  method GenerateSilentAudio(duration: Option<nat>) returns (buf: array<byte>)
    ensures var seconds := duration.GetOr(DefaultSilentSeconds);
            && buf.Length == HeaderSize + DataSize(SampleRate * seconds)
            && buf[..HeaderSize] == WavHeader(SampleRate * seconds)
    ensures duration.None? ==> buf.Length == HeaderSize + 4 * 44100 * 30
    ensures forall k :: HeaderSize <= k < buf.Length ==> buf[k] == 0
  {
    var numSamples := SampleRate * duration.GetOr(DefaultSilentSeconds);
    buf := new byte[HeaderSize + numSamples * NumChannels * 2];
    WriteWavHeader(buf, numSamples);
    var i := 0;
    while i < numSamples * NumChannels
      invariant 0 <= i <= numSamples * NumChannels
      invariant buf[..HeaderSize] == WavHeader(numSamples)
      invariant forall k :: HeaderSize <= k < HeaderSize + 2 * i ==> buf[k] == 0
    {
      buf[HeaderSize + i * 2] := 0;
      buf[HeaderSize + i * 2 + 1] := 0;
      i := i + 1;
    }
  }

  // ---------------------------------------------------------------------
  // Probing and fallbacks

  /** How `fetch(url, { method: 'HEAD' })` settles: a response with its `ok`, or an exception. */
  datatype FetchOutcome = Responded(ok: bool) | NetworkError

  /** `checkResourceExists`: the response's `ok`, and false on any exception. */
  function CheckResourceExists(probe: FetchOutcome): (found: bool)
    ensures found <==> probe == Responded(true)
  {
    match probe
    case Responded(ok) => ok
    case NetworkError => false
  }

  /**
   * `getResourceWithFallback`: the URL it resolves to and whether it
   * probed. An empty primary gives the fallback without probing; otherwise
   * the primary when the probe says it exists, else the fallback.
   */
  function ResourceWithFallback(primary: string, probe: FetchOutcome, fallback: string): (r: (string, bool))
    ensures primary == "" ==> r == (fallback, false)
    ensures primary != "" ==> r.1 && r.0 == (if CheckResourceExists(probe) then primary else fallback)
    ensures r.0 == primary || r.0 == fallback
  {
    if primary == "" then (fallback, false)
    else (if CheckResourceExists(probe) then primary else fallback, true)
  }

  /** The resolved URL is never empty when the fallback is not. */
  lemma FallbackNeverEmpty(primary: string, probe: FetchOutcome, fallback: string)
    requires fallback != ""
    ensures ResourceWithFallback(primary, probe, fallback).0 != ""
  {
  }

  // ---------------------------------------------------------------------
  // applyExampleResources

  /** The keys of the generated timeline images, in insertion order. */
  const TimelineKeys := ["meeting", "date1", "date2", "relationship", "valentine", "travel1", "travel2", "travel3"]

  /** The page configuration, as far as the mapping touches it; `others` stands for the fields it copies. */
  datatype TimelineItem = TimelineItem(images: seq<string>, others: map<string, string>)
  datatype GalleryItem = GalleryItem(src: string, others: map<string, string>)
  datatype Config = Config(
    heroImage: string, music: string, timeline: seq<TimelineItem>, gallery: seq<GalleryItem>,
    others: map<string, string>)

  /** What `generateExampleResources` returns: eight timeline images (in key order) and six gallery images. */
  datatype Generated = Generated(heroImage: string, music: string, timeline: seq<string>, gallery: seq<string>)

  ghost predicate WellFormed(g: Generated) {
    |g.timeline| == |TimelineKeys| && |g.gallery| == 6
  }

  /** Every generated resource is a non-empty data or object URL. */
  ghost predicate AllNonEmpty(g: Generated) {
    && g.heroImage != "" && g.music != ""
    && (forall i :: 0 <= i < |g.timeline| ==> g.timeline[i] != "")
    && (forall i :: 0 <= i < |g.gallery| ==> g.gallery[i] != "")
  }

  /** One timeline entry: each empty image takes the fallback chosen by the ENTRY's index. */
  function FilledItem(item: TimelineItem, fallback: string): (r: TimelineItem)
    ensures |r.images| == |item.images| && r.others == item.others
    ensures forall j :: 0 <= j < |item.images| ==> r.images[j] == OrElse(item.images[j], fallback)
  {
    item.(images := seq(|item.images|, j requires 0 <= j < |item.images| => OrElse(item.images[j], fallback)))
  }

  /**
   * `applyExampleResources`: empty hero image and music take the generated
   * ones; the images of timeline entry i take `timeline[TimelineKeys[i % 8]]`;
   * gallery entry i takes `gallery[i % 6]`. Lengths and other fields are kept.
   */
  function ApplyExampleResources(c: Config, g: Generated): (r: Config)
    requires WellFormed(g)
    ensures r.heroImage == OrElse(c.heroImage, g.heroImage) && r.music == OrElse(c.music, g.music)
    ensures |r.timeline| == |c.timeline| && |r.gallery| == |c.gallery| && r.others == c.others
    ensures forall i :: 0 <= i < |c.timeline| ==> r.timeline[i] == FilledItem(c.timeline[i], g.timeline[i % 8])
    ensures forall i :: 0 <= i < |c.gallery| ==>
      r.gallery[i] == c.gallery[i].(src := OrElse(c.gallery[i].src, g.gallery[i % 6]))
  {
    c.(heroImage := OrElse(c.heroImage, g.heroImage),
       music := OrElse(c.music, g.music),
       timeline := seq(|c.timeline|, i requires 0 <= i < |c.timeline| => FilledItem(c.timeline[i], g.timeline[i % 8])),
       gallery := seq(|c.gallery|, i requires 0 <= i < |c.gallery| =>
         c.gallery[i].(src := OrElse(c.gallery[i].src, g.gallery[i % 6]))))
  }

  /** Nothing in the configuration is empty any more. */
  ghost predicate Complete(c: Config) {
    && c.heroImage != "" && c.music != ""
    && (forall i, j :: 0 <= i < |c.timeline| && 0 <= j < |c.timeline[i].images| ==> c.timeline[i].images[j] != "")
    && (forall i :: 0 <= i < |c.gallery| ==> c.gallery[i].src != "")
  }

  /**
   * With non-empty generated resources, the mapping leaves nothing empty,
   * keeps every non-empty value, and applying it again changes nothing.
   */
  lemma ApplyExampleResourcesFills(c: Config, g: Generated)
    requires WellFormed(g) && AllNonEmpty(g)
    ensures Complete(ApplyExampleResources(c, g))
    ensures ApplyExampleResources(ApplyExampleResources(c, g), g) == ApplyExampleResources(c, g)
  {
    var r := ApplyExampleResources(c, g);
    var r2 := ApplyExampleResources(r, g);
    forall i | 0 <= i < |c.timeline|
      ensures r2.timeline[i] == r.timeline[i]
    {
      assert r.timeline[i].images == FilledItem(r.timeline[i], g.timeline[i % 8]).images;
    }
    assert r2.timeline == r.timeline;
    assert r2.gallery == r.gallery;
  }

  /** Non-empty values are never replaced. */
  lemma ApplyKeepsGivenValues(c: Config, g: Generated, i: nat, j: nat)
    requires WellFormed(g)
    ensures c.heroImage != "" ==> ApplyExampleResources(c, g).heroImage == c.heroImage
    ensures i < |c.timeline| && j < |c.timeline[i].images| && c.timeline[i].images[j] != "" ==>
      ApplyExampleResources(c, g).timeline[i].images[j] == c.timeline[i].images[j]
    ensures i < |c.gallery| && c.gallery[i].src != "" ==> ApplyExampleResources(c, g).gallery[i].src == c.gallery[i].src
  {
  }

  // ---------------------------------------------------------------------
  // generateResourcePack and the gallery placeholders

  /** The gallery placeholder colours, cycling by index. */
  const GalleryColours := ["#F8E8E8", "#FFE4E1", "#FFF8F0"]

  function GalleryColour(i: nat): (c: string)
    ensures c in GalleryColours
  {
    GalleryColours[i % 3]
  }

  /** The colours repeat with period 3. */
  lemma GalleryColourCycles(i: nat)
    ensures GalleryColour(i + 3) == GalleryColour(i)
    ensures GalleryColour(i) == GalleryColours[0] <==> i % 3 == 0
  {
  }

  /** The file names of the pack, in download order: timeline, gallery, hero image, music. */
  function DownloadNames(galleryCount: nat): (names: seq<string>)
    ensures |names| == |TimelineKeys| + galleryCount + 2
    ensures forall k :: 0 <= k < |TimelineKeys| ==> names[k] == "timeline-" + TimelineKeys[k] + ".png"
    ensures forall i :: |TimelineKeys| <= i < |TimelineKeys| + galleryCount ==>
      names[i] == "gallery-photo" + NatToString(i - |TimelineKeys| + 1) + ".png"
    ensures names[|names| - 2] == "hero-background.png" && names[|names| - 1] == "background-music.wav"
  {
    seq(|TimelineKeys|, k requires 0 <= k < |TimelineKeys| => "timeline-" + TimelineKeys[k] + ".png")
    + seq(galleryCount, i requires 0 <= i < galleryCount => "gallery-photo" + NatToString(i + 1) + ".png")
    + ["hero-background.png", "background-music.wav"]
  }

  /** `generateResourcePack().download()`: each name paired with the resource saved under it. */
  function Downloads(g: Generated): (r: seq<(string, string)>)
    requires WellFormed(g)
    ensures |r| == |DownloadNames(|g.gallery|)|
    ensures forall k :: 0 <= k < |r| ==> r[k].0 == DownloadNames(|g.gallery|)[k]
    ensures forall k :: 0 <= k < |TimelineKeys| ==> r[k] == ("timeline-" + TimelineKeys[k] + ".png", g.timeline[k])
    ensures forall i :: 0 <= i < |g.gallery| ==>
      r[|TimelineKeys| + i] == ("gallery-photo" + NatToString(i + 1) + ".png", g.gallery[i])
    ensures r[|r| - 2] == ("hero-background.png", g.heroImage) && r[|r| - 1] == ("background-music.wav", g.music)
  {
    var names := DownloadNames(|g.gallery|);
    var urls := g.timeline + g.gallery + [g.heroImage, g.music];
    seq(|names|, k requires 0 <= k < |names| => (names[k], urls[k]))
  }

  /** Equal strings with the same prefix and suffix have the same middle. */
  lemma AffixCancel(p: string, a: string, b: string, s: string)
    requires p + a + s == p + b + s
    ensures a == b
  {
    assert |a| == |b|;
    assert a == (p + a + s)[|p|..|p| + |a|];
    assert b == (p + b + s)[|p|..|p| + |b|];
  }

  predicate Distinct(xs: seq<string>) {
    forall i, j :: 0 <= i < j < |xs| ==> xs[i] != xs[j]
  }

  /** No two downloads of the pack share a file name, so none overwrites another. */
  lemma DownloadNamesDistinct(galleryCount: nat)
    ensures Distinct(DownloadNames(galleryCount))
  {
    var names := DownloadNames(galleryCount);
    var t := |TimelineKeys|;
    forall i, j | 0 <= i < j < |names|
      ensures names[i] != names[j]
    {
      DownloadNameDiffers(galleryCount, names, t, i, j);
    }
  }

  /** One pair of positions of the pack: their names differ. */
  lemma DownloadNameDiffers(galleryCount: nat, names: seq<string>, t: nat, i: nat, j: nat)
    requires names == DownloadNames(galleryCount) && t == |TimelineKeys|
    requires i < j < |names|
    ensures names[i] != names[j]
  {
    if j < t {
      assert names[i] == "timeline-" + TimelineKeys[i] + ".png";
      assert names[j] == "timeline-" + TimelineKeys[j] + ".png";
      if names[i] == names[j] {
        AffixCancel("timeline-", TimelineKeys[i], TimelineKeys[j], ".png");
      }
    } else if j < t + galleryCount {
      var nj := NatToString(j - t + 1);
      assert names[j] == "gallery-photo" + nj + ".png";
      if i < t {
        assert names[i] == "timeline-" + TimelineKeys[i] + ".png";
        assert names[i][0] == 't' && names[j][0] == 'g';
      } else {
        var ni := NatToString(i - t + 1);
        assert names[i] == "gallery-photo" + ni + ".png";
        if names[i] == names[j] {
          AffixCancel("gallery-photo", ni, nj, ".png");
          NatToStringInjective(i - t + 1, j - t + 1);
        }
      }
    } else if i < t {
      assert names[i] == "timeline-" + TimelineKeys[i] + ".png";
      assert names[i][0] == 't';
      assert names[j] == "hero-background.png" || names[j] == "background-music.wav";
    } else if i < t + galleryCount {
      assert names[i] == "gallery-photo" + NatToString(i - t + 1) + ".png";
      assert names[i][0] == 'g';
      assert names[j] == "hero-background.png" || names[j] == "background-music.wav";
    } else {
      assert i == |names| - 2 && j == |names| - 1;
    }
  }
}
