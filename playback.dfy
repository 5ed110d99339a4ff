/**
 * The decisions behind the player buttons and the end of a track: which
 * index of the current album plays next. The player (module Streamer)
 * carries them out; here they are stated over plain numbers.
 */
module Playback {

  /**
   * What a handler does: play the track at an index of the current album,
   * replay the track that just ended, stop (only `isPlaying` is cleared),
   * or nothing at all.
   */
  datatype Choice = PlayAt(index: nat) | Replay | Halt | Stay

  /**
   * `playNextTrack` with a current album of `count` tracks playing at
   * `index`; `rnd` is the index `Math.random` would pick. Shuffle plays the
   * random index, otherwise the following track plays, and after the last
   * track playback stops without wrapping around.
   */
  function NextChoice(shuffle: bool, index: nat, count: nat, rnd: nat): (c: Choice)
    requires index < count && rnd < count
    ensures c.PlayAt? || c.Halt?
    ensures c.PlayAt? ==> c.index < count
    ensures c.Halt? <==> !shuffle && index == count - 1
  {
    if shuffle then PlayAt(rnd)
    else if index < count - 1 then PlayAt(index + 1)
    else Halt
  }

  /**
   * `playPreviousTrack` at `index`: the track before, or nothing on the
   * first track. The shuffle flag plays no part.
   */
  function PreviousChoice(index: nat): (c: Choice)
    ensures c.PlayAt? || c.Stay?
    ensures c.Stay? <==> index == 0
    ensures c.PlayAt? ==> c.index < index
  {
    if index > 0 then PlayAt(index - 1) else Stay
  }

  /**
   * The `ended` listener: repeat replays the track, otherwise shuffle plays
   * the random index (possibly the same track), otherwise the next-track
   * rule applies with shuffle off.
   */
  function EndedChoice(repeat: bool, shuffle: bool, index: nat, count: nat, rnd: nat): (c: Choice)
    requires index < count && rnd < count
    ensures c.Replay? <==> repeat
    ensures c.PlayAt? ==> c.index < count
    ensures c.Halt? <==> !repeat && !shuffle && index == count - 1
  {
    if repeat then Replay
    else if shuffle then PlayAt(rnd)
    else NextChoice(false, index, count, rnd)
  }

  // ---------------------------------------------------------------------------
  // Several track ends in a row

  /** The index of the current track and whether it is playing. */
  datatype Position = Position(index: nat, playing: bool)

  /**
   * Where the player is after the playing track has ended once for each
   * entry of `rnds` (the random draw of that end). Once stopped, no track
   * plays, so no further end arrives.
   */
  function AfterEnds(repeat: bool, shuffle: bool, p: Position, count: nat, rnds: seq<nat>): (q: Position)
    requires p.index < count
    requires forall k :: 0 <= k < |rnds| ==> rnds[k] < count
    ensures q.index < count
    decreases |rnds|
  {
    if rnds == [] || !p.playing then p
    else
      var next := match EndedChoice(repeat, shuffle, p.index, count, rnds[0])
        case PlayAt(j) => Position(j, true)
        case Replay => p
        case Halt => Position(p.index, false)
        case Stay => p;
      AfterEnds(repeat, shuffle, next, count, rnds[1..])
  }

  /** With repeat on, the same track plays however often it ends. */
  lemma {:induction false} RepeatHoldsTrack(shuffle: bool, i: nat, count: nat, rnds: seq<nat>)
    requires i < count
    requires forall k :: 0 <= k < |rnds| ==> rnds[k] < count
    ensures AfterEnds(true, shuffle, Position(i, true), count, rnds) == Position(i, true)
    decreases |rnds|
  {
    if rnds != [] {
      RepeatHoldsTrack(shuffle, i, count, rnds[1..]);
    }
  }

  /**
   * With repeat and shuffle off, each end advances one track until the
   * last track of the album has ended; then playback stops on it.
   */
  lemma {:induction false} SequentialEnds(i: nat, count: nat, rnds: seq<nat>)
    requires i < count
    requires forall k :: 0 <= k < |rnds| ==> rnds[k] < count
    ensures AfterEnds(false, false, Position(i, true), count, rnds)
            == if i + |rnds| < count then Position(i + |rnds|, true) else Position(count - 1, false)
    decreases |rnds|
  {
    if rnds != [] {
      if i < count - 1 {
        SequentialEnds(i + 1, count, rnds[1..]);
      } else {
        StoppedStays(false, false, Position(i, false), count, rnds[1..]);
      }
    }
  }

  /** Once stopped, the player stays where it stopped. */
  lemma {:induction false} StoppedStays(repeat: bool, shuffle: bool, p: Position, count: nat, rnds: seq<nat>)
    requires p.index < count && !p.playing
    requires forall k :: 0 <= k < |rnds| ==> rnds[k] < count
    ensures AfterEnds(repeat, shuffle, p, count, rnds) == p
  {
  }

  /** With shuffle on and repeat off, the track playing is the last random draw. */
  lemma {:induction false} ShuffleEnds(i: nat, count: nat, rnds: seq<nat>)
    requires i < count && |rnds| > 0
    requires forall k :: 0 <= k < |rnds| ==> rnds[k] < count
    ensures AfterEnds(false, true, Position(i, true), count, rnds) == Position(rnds[|rnds| - 1], true)
    decreases |rnds|
  {
    if |rnds| > 1 {
      ShuffleEnds(rnds[0], count, rnds[1..]);
    }
  }
}
