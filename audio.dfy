/**
 * A streamable stereo audio file (autodj/backend/audio.py; autodj/dj/audio.py
 * is the same file). Decoding with ffmpeg and the normalisation that follows
 * are outside the model: the constructor receives the decoded signal, and
 * `Stream` cuts windows out of it, padded with silence outside the signal.
 */
module BackendAudio {
  import opened Wrappers

  /** A stereo sample: left and right. */
  type Frame = (real, real)

  const Silence: Frame := (0.0, 0.0)

  /**
   * The window of `length` frames of `sig` starting at `pos`, with silence
   * where the window reaches outside the signal.
   */
  function Window(sig: seq<Frame>, pos: int, length: nat): (w: seq<Frame>)
    ensures |w| == length
  {
    seq(length, i requires 0 <= i < length => if 0 <= pos + i < |sig| then sig[pos + i] else Silence)
  }

  /** Consecutive windows join up into the window over both. */
  lemma WindowsJoin(sig: seq<Frame>, pos: int, m: nat, n: nat)
    ensures Window(sig, pos, m) + Window(sig, pos + m, n) == Window(sig, pos, m + n)
  {
    var l := Window(sig, pos, m) + Window(sig, pos + m, n);
    var r := Window(sig, pos, m + n);
    forall i | 0 <= i < m + n
      ensures l[i] == r[i]
    {
      if i >= m {
        assert l[i] == Window(sig, pos + m, n)[i - m];
      }
    }
  }

  /** The window over the whole signal is the signal; one that misses it is silent. */
  lemma WindowBounds(sig: seq<Frame>, pos: int, length: nat)
    ensures Window(sig, 0, |sig|) == sig
    ensures pos + length <= 0 || pos >= |sig| ==> forall i :: 0 <= i < length ==> Window(sig, pos, length)[i] == Silence
  {
  }

  class AudioFile {
    const file: string
    const signal: array<Frame>
    const length: nat := signal.Length

    /** An audio file of `file` whose decoded frames are `frames`. */
    constructor (file: string, frames: seq<Frame>)
      ensures this.file == file && signal[..] == frames && length == |frames|
    {
      this.file := file;
      var buf := new Frame[|frames|](i requires 0 <= i < |frames| => frames[i]);
      assert buf[..] == frames;
      signal := buf;
    }

    /**
     * stream(pos, length): the window of the signal at `pos`, padded with
     * silence; a negative length is an error.
     */
    method Stream(pos: int, length: int) returns (out: Option<array<Frame>>)
      ensures out.None? <==> length < 0
      ensures out.Some? ==> out.value.Length == length && out.value[..] == Window(signal[..], pos, length)
      ensures out.Some? ==> fresh(out.value)
    {
      if length < 0 {
        return None;
      }
      var buf := new Frame[length](_ => Silence);
      if length == 0 || pos + length <= 0 || pos >= this.length {
        return Some(buf);
      }
      var fromInp := Min(Max(pos, 0), this.length);
      var toInp := Min(pos + length, this.length);
      var fromOut := Min(Max(-pos, 0), length);
      // the copied slice lies inside both buffers
      assert 0 <= fromInp <= toInp <= this.length && 0 <= fromOut && fromOut + (toInp - fromInp) <= length;
      for k := 0 to toInp - fromInp
        invariant forall i :: 0 <= i < length ==>
                    buf[i] == if fromOut <= i < fromOut + k then signal[pos + i] else Silence
      {
        buf[fromOut + k] := signal[fromInp + k];
      }
      assert buf[..] == Window(signal[..], pos, length);
      return Some(buf);
    }
  }
}
