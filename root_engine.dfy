/**
 * RootEngine: the toolkit-backed engine keeps an ordered registry of the frames
 * it must show when it runs and hide when a main window closes.
 */
module RootEngines {
  import opened Common
  import opened FrameLists

  class RootEngine {
    /** m_frames: the registered frames, in registration order, duplicates allowed. */
    var frames: seq<Handle>

    /** A new engine has no frames registered (the TApplication it may create is not modelled). */
    constructor ()
      ensures frames == []
    {
      frames := [];
    }

    /** addFrame: push_back onto the registry. */
    method AddFrame(frame: Handle)
      modifies this
      ensures frames == old(frames) + [frame]
    {
      frames := frames + [frame];
    }

    /** removeFrame: std::list::remove, erasing every registration of the frame. */
    method RemoveFrame(frame: Handle)
      modifies this
      ensures frames == Without(old(frames), frame)
      ensures frame !in frames
      ensures multiset(frames) == multiset(old(frames))[frame := 0]
      ensures frame !in old(frames) ==> frames == old(frames)
    {
      var registered := frames;
      var kept: seq<Handle> := [];
      var i := 0;
      while i < |registered|
        invariant 0 <= i <= |registered|
        invariant kept == Without(registered[..i], frame)
      {
        WithoutAppend(registered[..i], [registered[i]], frame);
        assert registered[..i + 1] == registered[..i] + [registered[i]];
        if registered[i] != frame {
          kept := kept + [registered[i]];
        }
        i := i + 1;
      }
      assert registered[..i] == registered;
      WithoutCounts(registered, frame);
      if frame !in registered {
        WithoutAbsent(registered, frame);
      }
      frames := kept;
    }

    /**
     * run's display loop: display() is called on each registered frame, front
     * to back. The result is the sequence of frames displayed, in call order;
     * the registry itself is left alone.
     */
    method Run() returns (displayed: seq<Handle>)
      ensures displayed == frames
    {
      displayed := [];
      var i := 0;
      while i < |frames|
        invariant 0 <= i <= |frames|
        invariant displayed == frames[..i]
      {
        displayed := displayed + [frames[i]];
        i := i + 1;
      }
      assert frames[..i] == frames;
    }

    /**
     * hideFrames: unDisplay() is called on each registered frame, back to
     * front. The result is the sequence of frames hidden, in call order.
     */
    method HideFrames() returns (hidden: seq<Handle>)
      ensures hidden == Reversed(frames)
      ensures |hidden| == |frames| && forall k :: 0 <= k < |frames| ==> hidden[k] == frames[|frames| - 1 - k]
      ensures multiset(hidden) == multiset(frames)
    {
      hidden := [];
      var i := |frames|;
      while i > 0
        invariant 0 <= i <= |frames|
        invariant hidden == Reversed(frames[i..])
      {
        ReversedCons(frames, i);
        hidden := hidden + [frames[i - 1]];
        i := i - 1;
      }
      assert frames[0..] == frames;
      forall k | 0 <= k < |frames|
        ensures hidden[k] == frames[|frames| - 1 - k]
      {
        ReversedAt(frames, k);
      }
      ReversedCounts(frames);
    }
  }
}
