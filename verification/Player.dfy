/**
 The viewer's end: what a player reads out of the bytes of an FLV file, field by field at their places in
 the FLV specification 10.1. Nothing of it is taken from the server.
 */
module Players {
  import opened Bytes
  import opened Format

  /** One tag as it is played: the size of the one before it, its type, size, time and stream id, and its data. */
  datatype Played = Played(previous: nat, kind: nat, size: nat, time: nat, streamId: nat,
                           body: seq<Byte>)

  /** Section E.2: "FLV", version 1, reserved bits 0, audio and video flags set. */
  predicate IsFlv(s: seq<Byte>) {
    && |s| >= 9 && s[0] == 'F' as int && s[1] == 'L' as int && s[2] == 'V' as int
    && s[3] == 1
    && s[4] / 8 == 0 && s[4] / 4 % 2 == 1 && s[4] / 2 % 2 == 0 && s[4] % 2 == 1
  }

  /** UI32: where the body starts. */
  function DataOffset(s: seq<Byte>): nat
    requires |s| >= 9
  {
    s[5] as int * 0x100_0000 + s[6] as int * 0x1_0000 + s[7] as int * 0x100 + s[8]
  }

  /** Section E.4.1, behind a PreviousTagSize of section E.3: the type, DataSize, Timestamp with its
      extension as the high byte, and StreamID. */
  function FieldsOf(s: seq<Byte>): Played
    requires |s| >= 15
  {
    Played(s[0] as int * 0x100_0000 + s[1] as int * 0x1_0000 + s[2] as int * 0x100 + s[3], s[4],
      s[5] as int * 0x1_0000 + s[6] as int * 0x100 + s[7],
      s[11] as int * 0x100_0000 + s[8] as int * 0x1_0000 + s[9] as int * 0x100 + s[10],
      s[12] as int * 0x1_0000 + s[13] as int * 0x100 + s[14], [])
  }

  /** The tags of a file body, up to the first incomplete one. */
  function Play(s: seq<Byte>): seq<Played> {
    if |s| < 15 then []
    else
      var t := FieldsOf(s);
      if |s| < 15 + t.size then [] else [t.(body := s[15..15 + t.size])] + Play(s[15 + t.size..])
  }

  /** What a player shows of a file, or of the part of it that it has. */
  function PlayFile(s: seq<Byte>): Option<seq<Played>> {
    if IsFlv(s) && DataOffset(s) <= |s| then Some(Play(s[DataOffset(s)..])) else None
  }

  /** Section E.3: every PreviousTagSize is the size of the tag before, 11 bytes of header included. */
  predicate Linked(previous: nat, tags: seq<Played>)
    decreases |tags|
  {
    tags == [] || (tags[0].previous == previous && Linked(11 + tags[0].size, tags[1..]))
  }

  lemma PlayFirst(s: seq<Byte>, body: seq<Byte>, rest: seq<Byte>)
    requires |s| == 15 && FieldsOf(s).size == |body|
    ensures Play(s + (body + rest)) == [FieldsOf(s).(body := body)] + Play(rest)
  {
    var all := s + (body + rest);
    FrontAndRest(s, body + rest);
    FrontAndRest(body, rest);
    assert FieldsOf(all) == FieldsOf(s);
    assert all[15..15 + |body|] == all[15..][..|body|] && all[15 + |body|..] == all[15..][|body|..];
  }

  lemma FieldsExtend(s: seq<Byte>, ext: seq<Byte>)
    requires |s| >= 15
    ensures FieldsOf(s + ext) == FieldsOf(s)
  {
    assert forall i :: 0 <= i < 15 ==> (s + ext)[i] == s[i];
  }

  lemma PlayStep(s: seq<Byte>)
    requires |s| >= 15 && |s| >= 15 + FieldsOf(s).size
    ensures var t := FieldsOf(s); Play(s) == [t.(body := s[15..15 + t.size])] + Play(s[15 + t.size..])
  {
    hide FieldsOf;
  }

  /** A player that has only part of the bytes finds the first of the tags. */
  lemma {:induction false} PlayExtends(s: seq<Byte>, ext: seq<Byte>)
    ensures Play(s) <= Play(s + ext)
    decreases |s|
  {
    hide FieldsOf;
    if |s| >= 15 {
      FieldsExtend(s, ext);
      var end := 15 + FieldsOf(s).size;
      if |s| >= end {
        hide Play;
        SliceWithin(s, ext, 15, end);
        PlayStep(s);
        PlayStep(s + ext);
        PlayExtends(s[end..], ext);
      }
    }
  }

  /** The part of a file that a player has shows the first of its tags, or is no file header yet. */
  predicate PlaysPart(part: seq<Byte>, tags: seq<Played>) {
    && (|part| >= 9 ==> IsFlv(part))
    && (|part| >= 9 && |part| >= DataOffset(part) ==> PlayFile(part).Some? && PlayFile(part).value <= tags)
  }

  lemma PartPlays(part: seq<Byte>, all: seq<Byte>)
    requires part <= all && PlayFile(all).Some?
    ensures PlaysPart(part, PlayFile(all).value)
  {
    hide Play;
    if |part| >= 9 && |part| >= DataOffset(part) {
      var n := DataOffset(part);
      assert all == part + all[|part|..];
      SliceWithin(part, all[|part|..], 0, n);
      PlayExtends(part[n..], all[|part|..]);
    }
  }
}
