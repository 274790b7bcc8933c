/** The transcript data and the time-to-block lookup of src/utils.ts. */
module Utils {
  import opened Wrappers

  /** One time-ranged span of transcribed text; both bounds are inclusive. */
  datatype Block = Block(start: real, end: real, text: string)

  /** A transcript as the transcription service returns it. */
  datatype Audio = Audio(id: string, title: string, audioUrl: string, blocks: seq<Block>)

  /**
   * JavaScript's `Array.prototype.find`: the first element of `s` that
   * satisfies `p`, or none when no element does.
   */
  function Find<T>(s: seq<T>, p: T -> bool): (r: Option<T>)
    ensures r.Some? ==> r.value in s && p(r.value)
    ensures r.None? <==> forall i :: 0 <= i < |s| ==> !p(s[i])
  {
    if |s| == 0 then None
    else if p(s[0]) then Some(s[0])
    else Find(s[1..], p)
  }

  /** An element satisfying `p` with no earlier one doing so is what `Find` returns. */
  lemma {:induction false} FindIsFirst<T>(s: seq<T>, p: T -> bool, i: nat)
    requires i < |s| && p(s[i])
    requires forall j :: 0 <= j < i ==> !p(s[j])
    ensures Find(s, p) == Some(s[i])
  {
    if i > 0 {
      assert !p(s[0]);
      assert forall j :: 0 <= j < i - 1 ==> s[1..][j] == s[j + 1];
      FindIsFirst(s[1..], p, i - 1);
    }
  }

  /** Whatever `Find` returns sits at an index that no earlier element satisfies. */
  lemma {:induction false} FindReturnsFirst<T>(s: seq<T>, p: T -> bool)
    requires Find(s, p).Some?
    ensures exists i :: 0 <= i < |s| && Find(s, p) == Some(s[i]) && forall j :: 0 <= j < i ==> !p(s[j])
  {
    if !p(s[0]) {
      FindReturnsFirst(s[1..], p);
      var i :| 0 <= i < |s[1..]| && Find(s[1..], p) == Some(s[1..][i])
        && forall j :: 0 <= j < i ==> !p(s[1..][j]);
      assert forall j :: 0 <= j < i + 1 ==> !p(s[j]) by {
        forall j | 0 <= j < i + 1 ensures !p(s[j]) {
          if j > 0 { assert s[j] == s[1..][j - 1]; }
        }
      }
      assert Find(s, p) == Some(s[i + 1]);
    }
  }

  /** Two tests that agree on every element make `Find` return the same thing. */
  lemma {:induction false} FindAgrees<T>(s: seq<T>, p: T -> bool, q: T -> bool)
    requires forall i :: 0 <= i < |s| ==> p(s[i]) == q(s[i])
    ensures Find(s, p) == Find(s, q)
  {
    if |s| > 0 {
      assert forall i :: 0 <= i < |s| - 1 ==> s[1..][i] == s[i + 1];
      FindAgrees(s[1..], p, q);
    }
  }

  /** The range test of `findAudioBlock`: the time, in milliseconds, divided by 1000. */
  predicate Covers(b: Block, audioTime: real) {
    audioTime / 1000.0 >= b.start && audioTime / 1000.0 <= b.end
  }

  /** `findAudioBlock(data, audioTime)`: the first block whose range holds `audioTime / 1000`. */
  function FindAudioBlock(data: Audio, audioTime: real): (r: Option<Block>)
    ensures r.Some? ==> r.value in data.blocks && r.value.start <= audioTime / 1000.0 <= r.value.end
    ensures r.None? <==> forall i :: 0 <= i < |data.blocks| ==> !Covers(data.blocks[i], audioTime)
  {
    Find(data.blocks, b => Covers(b, audioTime))
  }

  /** First match wins: the returned block is at an index that no earlier block covers. */
  lemma FindAudioBlockFirstMatch(data: Audio, audioTime: real)
    requires FindAudioBlock(data, audioTime).Some?
    ensures exists i :: 0 <= i < |data.blocks| && FindAudioBlock(data, audioTime) == Some(data.blocks[i]) &&
                        forall j :: 0 <= j < i ==> !Covers(data.blocks[j], audioTime)
  {
    FindReturnsFirst(data.blocks, b => Covers(b, audioTime));
  }

  /** Conversely, the first covering block is the one returned. */
  lemma FindAudioBlockFinds(data: Audio, audioTime: real, k: nat)
    requires k < |data.blocks| && Covers(data.blocks[k], audioTime)
    requires forall j :: 0 <= j < k ==> !Covers(data.blocks[j], audioTime)
    ensures FindAudioBlock(data, audioTime) == Some(data.blocks[k])
  {
    FindIsFirst(data.blocks, b => Covers(b, audioTime), k);
  }

  /** An empty transcript yields no block at any time. */
  lemma FindAudioBlockEmpty(data: Audio, audioTime: real)
    requires data.blocks == []
    ensures FindAudioBlock(data, audioTime) == None
  {
  }

  /** Blocks in time order that do not overlap, the common shape of a transcript. */
  ghost predicate Ordered(blocks: seq<Block>) {
    forall i, j :: 0 <= i < j < |blocks| ==> blocks[i].end < blocks[j].start
  }

  /** In an ordered transcript, any time inside block k finds block k. */
  lemma FindAudioBlockOrdered(data: Audio, audioTime: real, k: nat)
    requires Ordered(data.blocks) && k < |data.blocks| && Covers(data.blocks[k], audioTime)
    ensures FindAudioBlock(data, audioTime) == Some(data.blocks[k])
  {
    forall j | 0 <= j < k ensures !Covers(data.blocks[j], audioTime) {
      assert data.blocks[j].end < data.blocks[k].start;
    }
    FindAudioBlockFinds(data, audioTime, k);
  }

  /** Both bounds are inclusive: in an ordered transcript each block is found at its own start and end. */
  lemma FindAudioBlockBoundaries(data: Audio, k: nat)
    requires Ordered(data.blocks) && k < |data.blocks| && data.blocks[k].start <= data.blocks[k].end
    ensures FindAudioBlock(data, 1000.0 * data.blocks[k].start) == Some(data.blocks[k])
    ensures FindAudioBlock(data, 1000.0 * data.blocks[k].end) == Some(data.blocks[k])
  {
    var b := data.blocks[k];
    assert 1000.0 * b.start / 1000.0 == b.start && 1000.0 * b.end / 1000.0 == b.end;
    FindAudioBlockOrdered(data, 1000.0 * b.start, k);
    FindAudioBlockOrdered(data, 1000.0 * b.end, k);
  }

  /** The three-block transcript the unit tests use; its bounds are in seconds. */
  function SampleAudio(): Audio {
    Audio("", "", "", [Block(0.0, 10.0, "Text1"), Block(11.0, 20.0, "text2"), Block(21.0, 30.0, "text3")])
  }

  /** 15000 ms finds the second block, 35000 ms finds none and 10000 ms, on a shared bound, finds the first. */
  lemma FindAudioBlockSamples()
    ensures FindAudioBlock(SampleAudio(), 15000.0) == Some(Block(11.0, 20.0, "text2"))
    ensures FindAudioBlock(SampleAudio(), 35000.0) == None
    ensures FindAudioBlock(SampleAudio(), 10000.0) == Some(Block(0.0, 10.0, "Text1"))
    ensures FindAudioBlock(Audio("", "", "", []), 5000.0) == None
  {
    var a := SampleAudio();
    FindAudioBlockFinds(a, 15000.0, 1);
    FindAudioBlockFinds(a, 10000.0, 0);
  }
}
