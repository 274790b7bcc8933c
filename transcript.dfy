/**
 * The Transcript component of src/transcript/Transcript.tsx: its play, pause,
 * scrub and block-click handlers, the effect that recomputes the highlighted
 * block whenever `audioTime` changes, the choice of what to render and the
 * highlight test of each list item.
 *
 * Times are exact reals. `audioTime` and `currentTime` are the values the
 * code manipulates; the code itself mixes a millisecond reading (in
 * `findAudioBlock`) with a seconds reading (in the effect), and the model
 * keeps both as written.
 */
module TranscriptView {
  import opened Wrappers
  import opened Utils

  /** The three React state fields and the audio element's position. */
  datatype Playback = Playback(audioTime: real, currentTime: real, selected: Option<Block>, playing: bool)

  /** The state at mount: `useState(0)`, `useState()`, `useState(false)`, and an audio element at 0. */
  const Initial := Playback(0.0, 0.0, None, false)

  /** The range test of the effect: the block bounds are divided by 1000, the time is taken as it is. */
  predicate InBlockSeconds(b: Block, audioTime: real) {
    audioTime >= b.start / 1000.0 && audioTime <= b.end / 1000.0
  }

  /** The effect's `data.blocks.find(...)`: the first block whose scaled range holds `audioTime`. */
  function EffectLookup(blocks: seq<Block>, audioTime: real): (r: Option<Block>)
    ensures r.Some? ==> r.value in blocks && InBlockSeconds(r.value, audioTime)
    ensures r.None? <==> forall i :: 0 <= i < |blocks| ==> !InBlockSeconds(blocks[i], audioTime)
  {
    Find(blocks, b => InBlockSeconds(b, audioTime))
  }

  /**
   * The two lookups disagree on units: the effect's lookup at `audioTime` is
   * `findAudioBlock` at a million times that value.
   */
  lemma EffectLookupIsScaledFind(data: Audio, audioTime: real)
    ensures EffectLookup(data.blocks, audioTime) == FindAudioBlock(data, 1000000.0 * audioTime)
  {
    FindAgrees(data.blocks, b => InBlockSeconds(b, audioTime), b => Covers(b, 1000000.0 * audioTime));
  }

  /** `data?.blocks[0]`: the first block, or `undefined` for an empty list. */
  function FirstBlock(blocks: seq<Block>): Option<Block> {
    if |blocks| == 0 then None else Some(blocks[0])
  }

  /** handleBlockClick: seek to the block's start, set the time to its midpoint, select it. */
  function BlockClick(s: Playback, mounted: bool, b: Block): (r: Playback)
    ensures !mounted ==> r == s
    ensures mounted ==> r.selected == Some(b) && r.playing == s.playing
    ensures mounted && b.start <= b.end ==> r.currentTime <= r.audioTime && InBlockSeconds(b, r.audioTime)
  {
    if !mounted then s
    else s.(currentTime := b.start / 1000.0,
            audioTime := (b.start / 1000.0 + b.end / 1000.0) / 2.0,
            selected := Some(b))
  }

  /** handleScrubberChange: move both times to `v`; select `findAudioBlock(data, v)` only if it finds one. */
  function ScrubberChange(s: Playback, mounted: bool, data: Option<Audio>, v: real): (r: Playback)
    ensures !mounted || data.None? ==> r == s
    ensures mounted && data.Some? ==> r.audioTime == v && r.currentTime == v && r.playing == s.playing
    ensures r.selected != s.selected ==>
      data.Some? && r.selected.Some? && r.selected.value in data.value.blocks && Covers(r.selected.value, v)
  {
    if !mounted || data.None? then s
    else
      var found := FindAudioBlock(data.value, v);
      s.(audioTime := v, currentTime := v, selected := if found.Some? then found else s.selected)
  }

  /** togglePlay: take the audio position as `audioTime`, start playing, select the first block at 0. */
  function Play(s: Playback, mounted: bool, data: Option<Audio>): (r: Playback)
    ensures !mounted ==> r == s
    ensures mounted ==> r.playing && r.audioTime == s.currentTime && r.currentTime == s.currentTime
    ensures r.selected != s.selected ==>
      s.currentTime == 0.0 && data.Some? && r.selected == FirstBlock(data.value.blocks)
  {
    if !mounted then s
    else s.(audioTime := s.currentTime, playing := true,
            selected := if s.currentTime == 0.0 && data.Some? then FirstBlock(data.value.blocks) else s.selected)
  }

  /** togglePause: stop playing and take the audio position as `audioTime`. */
  function Pause(s: Playback, mounted: bool): (r: Playback)
    ensures !mounted ==> r == s
    ensures mounted ==> !r.playing && r.audioTime == s.currentTime
    ensures r.currentTime == s.currentTime && r.selected == s.selected
  {
    if !mounted then s else s.(playing := false, audioTime := s.currentTime)
  }

  /** The `audioTime` effect: unless the time is 0 or there is no data, select the effect's lookup. */
  function Effect(s: Playback, data: Option<Audio>): (r: Playback)
    ensures r.audioTime == s.audioTime && r.currentTime == s.currentTime && r.playing == s.playing
    ensures s.audioTime == 0.0 || data.None? ==> r == s
    ensures r.selected.Some? && r.selected != s.selected ==>
      r.selected.value in data.value.blocks && InBlockSeconds(r.selected.value, s.audioTime)
    ensures s.audioTime != 0.0 && data.Some? ==> r.selected == EffectLookup(data.value.blocks, s.audioTime)
  {
    if s.audioTime == 0.0 || data.None? then s
    else s.(selected := EffectLookup(data.value.blocks, s.audioTime))
  }

  /** The user events the rendered list and controls deliver. */
  datatype Event = ClickBlock(block: Block) | ScrubTo(value: real) | PressPlay | PressPause

  /** The handler an event runs. */
  function Handler(s: Playback, mounted: bool, data: Option<Audio>, e: Event): (r: Playback)
    ensures !mounted ==> r == s
    ensures e.PressPlay? || e.PressPause? ==> r.currentTime == s.currentTime
    ensures e.ClickBlock? || e.ScrubTo? ==> r.playing == s.playing
  {
    match e
    case ClickBlock(b) => BlockClick(s, mounted, b)
    case ScrubTo(v) => ScrubberChange(s, mounted, data, v)
    case PressPlay => Play(s, mounted, data)
    case PressPause => Pause(s, mounted)
  }

  /** An event's handler, then the effect if the handler changed `audioTime` (its dependency). */
  function AfterEvent(s: Playback, mounted: bool, data: Option<Audio>, e: Event): (r: Playback)
    ensures !mounted ==> r == s
    ensures r.audioTime == Handler(s, mounted, data, e).audioTime
    ensures r.currentTime == Handler(s, mounted, data, e).currentTime
    ensures r.playing == Handler(s, mounted, data, e).playing
    ensures r.selected != Handler(s, mounted, data, e).selected ==>
      r.audioTime != s.audioTime && r.audioTime != 0.0 && data.Some? &&
      r.selected == EffectLookup(data.value.blocks, r.audioTime)
    ensures r.audioTime != s.audioTime && r.audioTime != 0.0 && data.Some? ==>
      r.selected == EffectLookup(data.value.blocks, r.audioTime)
  {
    var t := Handler(s, mounted, data, e);
    if t.audioTime != s.audioTime then Effect(t, data) else t
  }

  /**
   * At a non-zero time with data present, the effect selects none exactly when
   * no block's seconds range holds `audioTime`, and otherwise the first block
   * whose range does.
   */
  lemma EffectIsFirstMatch(s: Playback, a: Audio)
    requires s.audioTime != 0.0
    ensures Effect(s, Some(a)).selected.None? <==>
      forall i :: 0 <= i < |a.blocks| ==> !InBlockSeconds(a.blocks[i], s.audioTime)
    ensures Effect(s, Some(a)).selected.Some? ==>
      exists i :: 0 <= i < |a.blocks| && Effect(s, Some(a)).selected == Some(a.blocks[i]) &&
                  InBlockSeconds(a.blocks[i], s.audioTime) &&
                  forall j :: 0 <= j < i ==> !InBlockSeconds(a.blocks[j], s.audioTime)
  {
    if Effect(s, Some(a)).selected.Some? {
      FindReturnsFirst(a.blocks, b => InBlockSeconds(b, s.audioTime));
    }
  }

  /** The highlighted block, if any, is one of the transcript's blocks. */
  ghost predicate SelectionInTranscript(s: Playback, data: Option<Audio>) {
    s.selected.Some? ==> data.Some? && s.selected.value in data.value.blocks
  }

  /** A click can only come from a rendered list item, so its block is one of the transcript's. */
  ghost predicate FromView(data: Option<Audio>, e: Event) {
    e.ClickBlock? ==> data.Some? && e.block in data.value.blocks
  }

  /** With the audio element not mounted, no event changes anything. */
  lemma UnmountedIsNoOp(s: Playback, data: Option<Audio>, e: Event)
    ensures AfterEvent(s, false, data, e) == s
  {
  }

  /** Without transcript data a scrub changes nothing. */
  lemma ScrubWithoutDataIsNoOp(s: Playback, mounted: bool, v: real)
    ensures AfterEvent(s, mounted, None, ScrubTo(v)) == s
  {
  }

  /** Every event keeps the highlighted block inside the transcript. */
  lemma AfterEventKeepsSelection(s: Playback, mounted: bool, data: Option<Audio>, e: Event)
    requires SelectionInTranscript(s, data) && FromView(data, e)
    ensures SelectionInTranscript(AfterEvent(s, mounted, data, e), data)
  {
  }

  /**
   * A click on block k leaves it highlighted after the effect, with the audio
   * at its start and `audioTime` at its midpoint, when its bounds are in order
   * and no earlier block holds that midpoint.
   */
  lemma ClickKeepsHighlight(s: Playback, a: Audio, k: nat)
    requires k < |a.blocks| && a.blocks[k].start <= a.blocks[k].end
    requires forall j :: 0 <= j < k ==>
      !InBlockSeconds(a.blocks[j], (a.blocks[k].start / 1000.0 + a.blocks[k].end / 1000.0) / 2.0)
    ensures AfterEvent(s, true, Some(a), ClickBlock(a.blocks[k])).selected == Some(a.blocks[k])
    ensures AfterEvent(s, true, Some(a), ClickBlock(a.blocks[k])).currentTime == a.blocks[k].start / 1000.0
    ensures AfterEvent(s, true, Some(a), ClickBlock(a.blocks[k])).audioTime
         == (a.blocks[k].start / 1000.0 + a.blocks[k].end / 1000.0) / 2.0
    ensures AfterEvent(s, true, Some(a), ClickBlock(a.blocks[k])).playing == s.playing
  {
    var b := a.blocks[k];
    var mid := (b.start / 1000.0 + b.end / 1000.0) / 2.0;
    assert InBlockSeconds(b, mid);
    FindIsFirst(a.blocks, x => InBlockSeconds(x, mid), k);
  }

  /** A clicked block whose start lies after its end loses its highlight to the effect. */
  lemma ClickOnInvertedBlockDropsHighlight()
    ensures Handler(Initial, true, Some(Audio("", "", "", [Block(20000.0, 10000.0, "x")])),
                    ClickBlock(Block(20000.0, 10000.0, "x"))).selected == Some(Block(20000.0, 10000.0, "x"))
    ensures AfterEvent(Initial, true, Some(Audio("", "", "", [Block(20000.0, 10000.0, "x")])),
                       ClickBlock(Block(20000.0, 10000.0, "x"))).selected == None
  {
  }

  /** A clicked block whose midpoint an earlier block also holds hands its highlight to that earlier block. */
  lemma ClickOnShadowedBlockHighlightsEarlier()
    ensures AfterEvent(Initial, true, Some(Audio("", "", "", [Block(0.0, 10000.0, "a"), Block(4000.0, 6000.0, "b")])),
                       ClickBlock(Block(4000.0, 6000.0, "b"))).selected == Some(Block(0.0, 10000.0, "a"))
  {
    var blocks := [Block(0.0, 10000.0, "a"), Block(4000.0, 6000.0, "b")];
    FindIsFirst(blocks, x => InBlockSeconds(x, 5.0), 0);
  }

  /**
   * The effect decides a click on a block whose start lies after its end: when
   * the midpoint is a new, non-zero `audioTime` the block loses its highlight,
   * and when the midpoint equals the previous `audioTime` the effect does not
   * run and the block stays selected.
   */
  lemma InvertedClickHighlight(s: Playback, a: Audio, k: nat)
    requires k < |a.blocks| && a.blocks[k].start > a.blocks[k].end
    ensures var mid := (a.blocks[k].start / 1000.0 + a.blocks[k].end / 1000.0) / 2.0;
      (mid != s.audioTime && mid != 0.0 ==>
         AfterEvent(s, true, Some(a), ClickBlock(a.blocks[k])).selected != Some(a.blocks[k])) &&
      (mid == s.audioTime ==>
         AfterEvent(s, true, Some(a), ClickBlock(a.blocks[k])).selected == Some(a.blocks[k]))
  {
  }

  /**
   * A click on block k whose midpoint is a new, non-zero `audioTime` ends
   * highlighting the first block j that holds that midpoint, even when j is
   * before k.
   */
  lemma ShadowedClickHighlight(s: Playback, a: Audio, j: nat, k: nat)
    requires j < |a.blocks| && k < |a.blocks|
    requires var mid := (a.blocks[k].start / 1000.0 + a.blocks[k].end / 1000.0) / 2.0;
      mid != s.audioTime && mid != 0.0 && InBlockSeconds(a.blocks[j], mid) &&
      forall i :: 0 <= i < j ==> !InBlockSeconds(a.blocks[i], mid)
    ensures AfterEvent(s, true, Some(a), ClickBlock(a.blocks[k])).selected == Some(a.blocks[j])
  {
    var mid := (a.blocks[k].start / 1000.0 + a.blocks[k].end / 1000.0) / 2.0;
    FindIsFirst(a.blocks, x => InBlockSeconds(x, mid), j);
  }

  /**
   * After a scrub to a new non-zero value, the highlight is the effect's
   * lookup at that value; the scrubber's own `findAudioBlock` result survives
   * only when the value equals the previous `audioTime`.
   */
  lemma ScrubHighlightIsEffects(s: Playback, a: Audio, v: real)
    ensures v != 0.0 && v != s.audioTime ==>
      AfterEvent(s, true, Some(a), ScrubTo(v)).selected == EffectLookup(a.blocks, v)
    ensures v == s.audioTime ==>
      AfterEvent(s, true, Some(a), ScrubTo(v)).selected
        == (if FindAudioBlock(a, v).Some? then FindAudioBlock(a, v) else s.selected)
    ensures v == 0.0 ==>
      AfterEvent(s, true, Some(a), ScrubTo(v)).selected
        == (if FindAudioBlock(a, 0.0).Some? then FindAudioBlock(a, 0.0) else s.selected)
    ensures AfterEvent(s, true, Some(a), ScrubTo(v)).audioTime == v
    ensures AfterEvent(s, true, Some(a), ScrubTo(v)).currentTime == v
  {
  }

  /**
   * The unit mismatch at work on the unit tests' transcript (bounds in
   * seconds): scrubbing to 15000 finds "text2", and the effect then clears it.
   */
  lemma ScrubHighlightClearedByEffect()
    ensures Handler(Initial, true, Some(SampleAudio()), ScrubTo(15000.0)).selected
         == Some(Block(11.0, 20.0, "text2"))
    ensures AfterEvent(Initial, true, Some(SampleAudio()), ScrubTo(15000.0)).selected == None
  {
    FindAudioBlockSamples();
  }

  /** Play at position 0 highlights the first block, wherever that block starts. */
  lemma PlayAtZeroHighlightsFirst(s: Playback, a: Audio)
    requires s.currentTime == 0.0 && |a.blocks| > 0
    ensures AfterEvent(s, true, Some(a), PressPlay) == s.(audioTime := 0.0, playing := true, selected := Some(a.blocks[0]))
  {
  }

  /** Pause stops playback and freezes `audioTime` at the audio position; the highlight follows that position. */
  lemma PauseFreezesPosition(s: Playback, data: Option<Audio>)
    ensures !AfterEvent(s, true, data, PressPause).playing
    ensures AfterEvent(s, true, data, PressPause).audioTime == s.currentTime
    ensures AfterEvent(s, true, data, PressPause).currentTime == s.currentTime
    ensures s.audioTime == s.currentTime ==> AfterEvent(s, true, data, PressPause).selected == s.selected
  {
  }

  /**
   * Play, pause, play ends where a single play does, when the audio position
   * does not move between the presses: re-entry neither repeats nor skips a
   * highlight update.
   */
  lemma PlayPausePlayIsPlay(s: Playback, mounted: bool, data: Option<Audio>)
    ensures AfterEvent(AfterEvent(AfterEvent(s, mounted, data, PressPlay), mounted, data, PressPause), mounted, data, PressPlay)
         == AfterEvent(s, mounted, data, PressPlay)
  {
  }

  /**
   * Play straight after a pause, wherever the audio position had moved before
   * that pause, only starts playing again, unless the audio is at 0 with data
   * present (then it also selects the first block).
   */
  lemma PlayAfterPauseOnlyStartsPlaying(s: Playback, data: Option<Audio>)
    requires s.currentTime != 0.0 || data.None?
    ensures AfterEvent(AfterEvent(s, true, data, PressPause), true, data, PressPlay)
         == AfterEvent(s, true, data, PressPause).(playing := true)
  {
  }

  /**
   * A pause after the audio has moved to a new, non-zero position makes the
   * effect highlight the block at that position.
   */
  lemma PauseRecomputesHighlight(s: Playback, a: Audio)
    requires s.currentTime != s.audioTime && s.currentTime != 0.0
    ensures AfterEvent(s, true, Some(a), PressPause).selected == EffectLookup(a.blocks, s.currentTime)
  {
  }

  /**
   * A play after the audio has moved to a new, non-zero position makes the
   * effect highlight the block at that position.
   */
  lemma PlayRecomputesHighlight(s: Playback, a: Audio)
    requires s.currentTime != s.audioTime && s.currentTime != 0.0
    ensures AfterEvent(s, true, Some(a), PressPlay).selected == EffectLookup(a.blocks, s.currentTime)
    ensures AfterEvent(s, true, Some(a), PressPlay).playing
  {
  }

  /** Pausing twice is pausing once. */
  lemma PauseIdempotent(s: Playback, mounted: bool, data: Option<Audio>)
    ensures AfterEvent(AfterEvent(s, mounted, data, PressPause), mounted, data, PressPause)
         == AfterEvent(s, mounted, data, PressPause)
  {
  }

  /** The component, with its state fields updated in place by its handlers. */
  class TranscriptComponent {
    /** The last transcript in the mutation cache, or none. */
    const data: Option<Audio>
    /** Whether `audioRef.current` is set. */
    var audioMounted: bool
    var audioTime: real
    /** The audio element's `currentTime`. */
    var currentTime: real
    /** `selectedText`. */
    var selected: Option<Block>
    /** `isAudioPlaying`. */
    var playing: bool

    function State(): Playback
      reads this
    {
      Playback(audioTime, currentTime, selected, playing)
    }

    ghost predicate Valid()
      reads this
    {
      SelectionInTranscript(State(), data)
    }

    constructor (data: Option<Audio>, audioMounted: bool)
      ensures this.data == data && this.audioMounted == audioMounted
      ensures State() == Initial && Valid()
    {
      this.data := data;
      this.audioMounted := audioMounted;
      audioTime, currentTime, selected, playing := 0.0, 0.0, None, false;
    }

    method HandleBlockClick(block: Block)
      requires Valid() && FromView(data, ClickBlock(block))
      modifies this`audioTime, this`currentTime, this`selected
      ensures Valid()
      ensures State() == BlockClick(old(State()), audioMounted, block)
    {
      if !audioMounted {
        return;
      }
      currentTime := block.start / 1000.0;
      var middleTime := (block.start / 1000.0 + block.end / 1000.0) / 2.0;
      audioTime := middleTime;
      selected := Some(block);
    }

    method HandleScrubberChange(newTime: real)
      requires Valid()
      modifies this`audioTime, this`currentTime, this`selected
      ensures Valid()
      ensures State() == ScrubberChange(old(State()), audioMounted, data, newTime)
    {
      if !audioMounted || data.None? {
        return;
      }
      audioTime := newTime;
      currentTime := newTime;
      var found := FindAudioBlock(data.value, newTime);
      if found.Some? {
        selected := found;
      }
    }

    method TogglePlay()
      requires Valid()
      modifies this`audioTime, this`selected, this`playing
      ensures Valid()
      ensures State() == Play(old(State()), audioMounted, data)
    {
      if !audioMounted {
        return;
      }
      audioTime := currentTime;
      playing := true;
      if currentTime == 0.0 && data.Some? {
        selected := FirstBlock(data.value.blocks);
      }
    }

    method TogglePause()
      requires Valid()
      modifies this`audioTime, this`playing
      ensures Valid()
      ensures State() == Pause(old(State()), audioMounted)
    {
      if !audioMounted {
        return;
      }
      playing := false;
      audioTime := currentTime;
    }

    method RunEffect()
      requires Valid()
      modifies this`selected
      ensures Valid()
      ensures State() == Effect(old(State()), data)
    {
      if audioTime == 0.0 || data.None? {
        return;
      }
      selected := EffectLookup(data.value.blocks, audioTime);
    }

    /** Runs an event's handler, then the effect when `audioTime` changed. */
    method Dispatch(e: Event)
      requires Valid() && FromView(data, e)
      modifies this`audioTime, this`currentTime, this`selected, this`playing
      ensures Valid()
      ensures State() == AfterEvent(old(State()), audioMounted, data, e)
    {
      var before := audioTime;
      match e {
        case ClickBlock(b) => HandleBlockClick(b);
        case ScrubTo(v) => HandleScrubberChange(v);
        case PressPlay => TogglePlay();
        case PressPause => TogglePause();
      }
      if audioTime != before {
        RunEffect();
      }
    }
  }

  /** What the component renders. */
  datatype Screen = ErrorScreen | LoadingScreen | NoDataScreen | BlockList(blocks: seq<Block>)

  /** The render choice: error first, then loading, then "No data" for absent or empty blocks, then the list. */
  function RenderState(error: bool, isLoading: bool, data: Option<Audio>): (r: Screen)
    ensures r == ErrorScreen <==> error
    ensures r == LoadingScreen <==> !error && isLoading
    ensures r == NoDataScreen <==> !error && !isLoading && (data.None? || |data.value.blocks| == 0)
    ensures r.BlockList? <==> !error && !isLoading && data.Some? && |data.value.blocks| > 0
    ensures r.BlockList? ==> r.blocks == data.value.blocks
  {
    if error then ErrorScreen
    else if isLoading then LoadingScreen
    else if data.None? || |data.value.blocks| == 0 then NoDataScreen
    else BlockList(data.value.blocks)
  }

  /** A list item is highlighted when its text equals the selected block's text. */
  predicate IsHighlighted(selected: Option<Block>, b: Block) {
    selected.Some? && selected.value.text == b.text
  }

  /** The highlight flag of every list item, in list order. */
  function Highlights(blocks: seq<Block>, selected: Option<Block>): (r: seq<bool>)
    ensures |r| == |blocks|
    ensures forall i :: 0 <= i < |blocks| ==> (r[i] <==> selected.Some? && selected.value.text == blocks[i].text)
  {
    if |blocks| == 0 then []
    else [IsHighlighted(selected, blocks[0])] + Highlights(blocks[1..], selected)
  }

  /** With nothing selected no item is highlighted; a selected list block is highlighted itself. */
  lemma HighlightsSelection(blocks: seq<Block>, selected: Option<Block>)
    ensures selected.None? ==> forall i :: 0 <= i < |blocks| ==> !Highlights(blocks, selected)[i]
    ensures forall k :: 0 <= k < |blocks| && selected == Some(blocks[k]) ==> Highlights(blocks, selected)[k]
  {
  }

  /** When texts are distinct, selecting block k highlights block k and no other. */
  lemma HighlightsUnique(blocks: seq<Block>, k: nat)
    requires k < |blocks|
    requires forall i, j :: 0 <= i < j < |blocks| ==> blocks[i].text != blocks[j].text
    ensures forall i :: 0 <= i < |blocks| ==> (Highlights(blocks, Some(blocks[k]))[i] <==> i == k)
  {
    forall i | 0 <= i < |blocks| ensures Highlights(blocks, Some(blocks[k]))[i] <==> i == k {
      if i < k {
        assert blocks[i].text != blocks[k].text;
      } else if k < i {
        assert blocks[k].text != blocks[i].text;
      }
    }
  }

  /** Highlighting compares text, not identity: two blocks with one text light up together. */
  lemma HighlightsByText()
    ensures Highlights([Block(0.0, 1.0, "hi"), Block(2.0, 3.0, "hi")], Some(Block(0.0, 1.0, "hi"))) == [true, true]
  {
  }
}
