/** The disk timing model: class HardDrive (main.py:27-51). */
module Disk {
  import opened Config

  function Abs(x: int): (n: nat)
  {
    if x < 0 then -x else x
  }

  /** Time charged by HardDrive.seek for moving the head from `from` to `to` on
      a disk with `tracks` tracks: TRACK_SEEK_TIME per unit of distance, except
      that exactly the distance tracks - 1 costs MAX_SEEK_TIME. */
  function SeekTime(tracks: int, from: int, to: int): (t: nat)
  {
    var diff := Abs(from - to);
    if diff == tracks - 1 then MAX_SEEK_TIME else diff * TRACK_SEEK_TIME
  }

  /** Time charged by HardDrive.read and HardDrive.write: seek plus settle. */
  function ServiceTime(tracks: int, from: int, to: int): (t: nat)
  {
    SeekTime(tracks, from, to) + ROTATIONAL_LATENCY
  }

  class HardDrive {
    var tracks: int
    var position: int

    constructor ()
      ensures tracks == TRACKS && position == 0
    {
      tracks := TRACKS;
      position := 0;
    }

    /** Moves the head to `track` and returns the seek time. */
    method Seek(track: int) returns (seekTime: int)
      modifies this
      ensures position == track && tracks == old(tracks)
      ensures seekTime == SeekTime(old(tracks), old(position), track)
    {
      var diff := Abs(position - track);
      seekTime := diff * TRACK_SEEK_TIME;
      if diff == tracks - 1 {
        seekTime := MAX_SEEK_TIME;
      }
      position := track;
    }

    method Read(track: int) returns (time: int)
      modifies this
      ensures position == track && tracks == old(tracks)
      ensures time == ServiceTime(old(tracks), old(position), track)
    {
      var seekTime := Seek(track);
      var rotationTime := ROTATIONAL_LATENCY;
      time := seekTime + rotationTime;
    }

    /** Same cost and head movement as Read; the data is not stored anywhere. */
    method Write<D>(track: int, data: D) returns (time: int)
      modifies this
      ensures position == track && tracks == old(tracks)
      ensures time == ServiceTime(old(tracks), old(position), track)
    {
      var seekTime := Seek(track);
      var rotationTime := ROTATIONAL_LATENCY;
      time := seekTime + rotationTime;
    }
  }

  /** The seek cost depends only on the distance, not on the direction. */
  lemma SeekTimeSymmetric(tracks: int, a: int, b: int)
    ensures SeekTime(tracks, a, b) == SeekTime(tracks, b, a)
  {
  }

  /** The clamp fires exactly at distance tracks - 1; every other distance is
      charged linearly. */
  lemma SeekTimeCases(tracks: int, a: int, b: int)
    ensures Abs(a - b) == tracks - 1 ==> SeekTime(tracks, a, b) == MAX_SEEK_TIME
    ensures Abs(a - b) != tracks - 1 ==> SeekTime(tracks, a, b) == Abs(a - b) * TRACK_SEEK_TIME
  {
  }

  /** A full-stroke read on the configured disk costs MAX_SEEK_TIME plus the
      rotational latency, in either direction. */
  lemma FullStrokeServiceTime(a: int, b: int)
    requires Abs(a - b) == TRACKS - 1
    ensures ServiceTime(TRACKS, a, b) == ServiceTime(TRACKS, b, a) == MAX_SEEK_TIME + ROTATIONAL_LATENCY
  {
  }

  /** The clamp makes the cost non-monotone in distance on every disk large
      enough for the linear cost to pass MAX_SEEK_TIME: distance tracks - 1 is
      cheaper than both tracks - 2 and tracks (on 500 tracks: 4980, 130, 5000). */
  lemma SeekTimeNotMonotone(tracks: int)
    requires tracks >= 16
    ensures SeekTime(tracks, 0, tracks - 2) > SeekTime(tracks, 0, tracks - 1)
    ensures SeekTime(tracks, 0, tracks - 1) < SeekTime(tracks, 0, tracks)
    ensures tracks == TRACKS ==>
      SeekTime(tracks, 0, tracks - 2) == 4980 && SeekTime(tracks, 0, tracks - 1) == 130
      && SeekTime(tracks, 0, tracks) == 5000
  {
  }

  /** Every read or write costs at least the rotational latency. */
  lemma ServiceTimeAtLeastLatency(tracks: int, a: int, b: int)
    ensures ServiceTime(tracks, a, b) >= ROTATIONAL_LATENCY
  {
  }
}
