/**
 * The SIMPLE in-place filter plugin: every sample x becomes x * scale + offset.
 * The filter is configured from a filter string such as "SIMPLE(1,0)", whose
 * numeric arguments arrive through SetParameters.
 */
module SimpleFilterPlugin {

  /** The value of the first n samples of s after the affine map, the rest as they were. */
  function Affine(s: seq<real>, n: int, scale: real, offset: real): (r: seq<real>)
    requires n <= |s|
    ensures |r| == |s|
    ensures forall i :: 0 <= i < |s| && i < n ==> r[i] == s[i] * scale + offset
    ensures forall i :: 0 <= i < |s| && n <= i ==> r[i] == s[i]
  {
    seq(|s|, i requires 0 <= i < |s| => if i < n then s[i] * scale + offset else s[i])
  }

  /** With the default parameters (scale 1, offset 0) the filter leaves a trace as it is. */
  lemma DefaultIsIdentity(s: seq<real>, n: int)
    requires n <= |s|
    ensures Affine(s, n, 1.0, 0.0) == s
  {
  }

  /**
   * A filter with scale c != 0 is undone by the filter with scale 1/c and
   * offset -offset/c: the two applied one after the other give back the input.
   */
  lemma {:induction false} AffineInverse(s: seq<real>, n: int, scale: real, offset: real)
    requires n <= |s| && scale != 0.0
    ensures Affine(Affine(s, n, scale, offset), n, 1.0 / scale, -offset / scale) == s
  {
    var t := Affine(s, n, scale, offset);
    var u := Affine(t, n, 1.0 / scale, -offset / scale);
    forall i | 0 <= i < |s| && i < n
      ensures u[i] == s[i]
    {
      calc {
        u[i];
        (s[i] * scale + offset) * (1.0 / scale) + -offset / scale;
        { assert scale * (1.0 / scale) == 1.0; }
        s[i];
      }
    }
  }

  /** Two filters applied one after the other are one filter with the composed parameters. */
  lemma Compose(s: seq<real>, n: int, scale1: real, offset1: real, scale2: real, offset2: real)
    requires n <= |s|
    ensures Affine(Affine(s, n, scale1, offset1), n, scale2, offset2)
         == Affine(s, n, scale1 * scale2, offset1 * scale2 + offset2)
  {
    var l := Affine(Affine(s, n, scale1, offset1), n, scale2, offset2);
    var r := Affine(s, n, scale1 * scale2, offset1 * scale2 + offset2);
    forall i | 0 <= i < |s| && i < n
      ensures l[i] == r[i]
    {
      assert l[i] == (s[i] * scale1 + offset1) * scale2 + offset2;
    }
  }

  class SimpleFilter {
    var scale: real
    var offset: real

    /** The constructor; its parameters default to scale 1 and offset 0. */
    constructor (scale: real := 1.0, offset: real := 0.0)
      ensures this.scale == scale && this.offset == offset
    {
      this.scale := scale;
      this.offset := offset;
    }

    /** The filter has no state that depends on the sampling frequency. */
    method SetSamplingFrequency(fsamp: real)
      ensures unchanged(this)
    {
    }

    /**
     * Takes the n parameters of a filter string. The filter needs two and
     * always answers 2; only a call with exactly two parameters changes it.
     */
    method SetParameters(n: int, params: seq<real>) returns (required: int)
      requires n == 2 ==> 2 <= |params|
      modifies this
      ensures required == 2
      ensures n == 2 ==> scale == params[0] && offset == params[1]
      ensures n != 2 ==> scale == old(scale) && offset == old(offset)
    {
      if n != 2 {
        return 2;
      }
      scale := params[0];
      offset := params[1];
      return 2;
    }

    /** Filters the first n samples of the buffer in place. */
    method Apply(n: int, inout: array<real>)
      requires n <= inout.Length
      modifies inout
      ensures inout[..] == Affine(old(inout[..]), n, scale, offset)
    {
      ghost var before := inout[..];
      var i := 0;
      while i < n
        invariant 0 <= i <= inout.Length
        invariant i <= if n < 0 then 0 else n
        invariant forall k :: 0 <= k < i ==> inout[k] == before[k] * scale + offset
        invariant forall k :: i <= k < inout.Length ==> inout[k] == before[k]
      {
        inout[i] := inout[i] * scale + offset;
        i := i + 1;
      }
      forall k | 0 <= k < inout.Length
        ensures inout[..][k] == Affine(before, n, scale, offset)[k]
      {
      }
    }

    /** A new filter with the same parameters. */
    method Clone() returns (c: SimpleFilter)
      ensures fresh(c)
      ensures c.scale == scale && c.offset == offset
    {
      c := new SimpleFilter(scale, offset);
    }
  }
}
