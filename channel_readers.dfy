/** The channel value readers: reading one of a Modo item's evaluation
    attributes as a boolean, integer, float, string, vector, colour,
    quaternion or 4x4 matrix. Each returns a result code (0 success, -1 no
    viable conversion, -2 illegal index, -3 the host's read failed) and
    resets its output before anything else; whenever the code is not 0
    the model returns that reset value. Without `strict` an integer channel may be read as a
    float and the other way round, any numeric channel as a boolean (the
    nonzero test) and as a string (`%d` or `%f`). */
module ChannelReaders {
  import opened Wrappers
  import opened Numerics
  import Text

  type Quat = q: seq<real> | |q| == 4 witness [0.0, 0.0, 0.0, 0.0]

  /** Modo's `LXtMatrix4`, indexed `m[i][j]`. */
  type Matrix4 = m: seq<seq<real>> | |m| == 4 && forall i :: 0 <= i < 4 ==> |m[i]| == 4
    witness [[0.0, 0.0, 0.0, 0.0], [0.0, 0.0, 0.0, 0.0], [0.0, 0.0, 0.0, 0.0], [0.0, 0.0, 0.0, 0.0]]

  /** One evaluation attribute, by its type, with what the host's read
      call for that type yields (`None`: the call fails). An object
      channel is read through the quaternion or the matrix interface. */
  datatype Chan =
    | IntChan(intValue: Option<Int32>)
    | FloatChan(floatValue: Option<real>)
    | StringChan(stringValue: Option<string>)
    | ObjectChan(quaternion: Option<Quat>, matrix: Option<Matrix4>)
    | OtherChan

  /** The attribute at `index`; an index past the last attribute has a type
      none of the readers accepts. */
  function ChanAt(attrs: seq<Chan>, index: int): Chan {
    if 0 <= index < |attrs| then attrs[index] else OtherChan
  }

  datatype ChannelRead<T> = ChannelRead(code: int, out: T)

  function GetChannelValueAsBoolean(attrs: seq<Chan>, index: int, strict: bool): (r: ChannelRead<bool>)
    ensures r.code in {0, -1, -2, -3}
    ensures r.code != 0 ==> r.out == false
    ensures r.code == -2 <==> index < 0
    ensures index >= 0 && ChanAt(attrs, index).IntChan? ==>
      r == (match ChanAt(attrs, index).intValue
            case None => ChannelRead(-3, false)
            case Some(i) => ChannelRead(0, i != 0))
    ensures index >= 0 && ChanAt(attrs, index).FloatChan? ==>
      r == (if strict then ChannelRead(-1, false)
            else match ChanAt(attrs, index).floatValue
              case None => ChannelRead(-3, false)
              case Some(f) => ChannelRead(0, f != 0.0))
    ensures index >= 0 && !ChanAt(attrs, index).IntChan? && !ChanAt(attrs, index).FloatChan? ==>
      r == ChannelRead(-1, false)
    ensures r.code == 0 ==> ChanAt(attrs, index).IntChan? || (!strict && ChanAt(attrs, index).FloatChan?)
  {
    if index < 0 then ChannelRead(-2, false)
    else match ChanAt(attrs, index)
      case IntChan(v) =>
        if v.None? then ChannelRead(-3, false) else ChannelRead(0, v.value != 0)
      case FloatChan(v) =>
        if strict then ChannelRead(-1, false)
        else if v.None? then ChannelRead(-3, false)
        else ChannelRead(0, v.value != 0.0)
      case _ => ChannelRead(-1, false)
  }

  /** The float-to-int conversion of the non-strict path truncates toward
      zero. */
  function GetChannelValueAsInteger(attrs: seq<Chan>, index: int, strict: bool): (r: ChannelRead<int>)
    ensures r.code in {0, -1, -2, -3}
    ensures r.code != 0 ==> r.out == 0
    ensures r.code == -2 <==> index < 0
    ensures index >= 0 && ChanAt(attrs, index).IntChan? ==>
      r == (match ChanAt(attrs, index).intValue
            case None => ChannelRead(-3, 0)
            case Some(i) => ChannelRead(0, i as int))
    ensures index >= 0 && ChanAt(attrs, index).FloatChan? ==>
      r == (if strict then ChannelRead(-1, 0)
            else match ChanAt(attrs, index).floatValue
              case None => ChannelRead(-3, 0)
              case Some(f) => ChannelRead(0, Trunc(f)))
    ensures index >= 0 && !ChanAt(attrs, index).IntChan? && !ChanAt(attrs, index).FloatChan? ==>
      r == ChannelRead(-1, 0)
    ensures r.code == 0 ==> ChanAt(attrs, index).IntChan? || (!strict && ChanAt(attrs, index).FloatChan?)
  {
    if index < 0 then ChannelRead(-2, 0)
    else match ChanAt(attrs, index)
      case IntChan(v) =>
        if v.None? then ChannelRead(-3, 0) else ChannelRead(0, v.value as int)
      case FloatChan(v) =>
        if strict then ChannelRead(-1, 0)
        else if v.None? then ChannelRead(-3, 0)
        else ChannelRead(0, Trunc(v.value))
      case _ => ChannelRead(-1, 0)
  }

  function GetChannelValueAsFloat(attrs: seq<Chan>, index: int, strict: bool): (r: ChannelRead<real>)
    ensures r.code in {0, -1, -2, -3}
    ensures r.code != 0 ==> r.out == 0.0
    ensures r.code == -2 <==> index < 0
    ensures index >= 0 && ChanAt(attrs, index).FloatChan? ==>
      r == (match ChanAt(attrs, index).floatValue
            case None => ChannelRead(-3, 0.0)
            case Some(f) => ChannelRead(0, f))
    ensures index >= 0 && ChanAt(attrs, index).IntChan? ==>
      r == (if strict then ChannelRead(-1, 0.0)
            else match ChanAt(attrs, index).intValue
              case None => ChannelRead(-3, 0.0)
              case Some(i) => ChannelRead(0, i as real))
    ensures index >= 0 && !ChanAt(attrs, index).IntChan? && !ChanAt(attrs, index).FloatChan? ==>
      r == ChannelRead(-1, 0.0)
    ensures r.code == 0 ==> ChanAt(attrs, index).FloatChan? || (!strict && ChanAt(attrs, index).IntChan?)
  {
    if index < 0 then ChannelRead(-2, 0.0)
    else match ChanAt(attrs, index)
      case FloatChan(v) =>
        if v.None? then ChannelRead(-3, 0.0) else ChannelRead(0, v.value)
      case IntChan(v) =>
        if strict then ChannelRead(-1, 0.0)
        else if v.None? then ChannelRead(-3, 0.0)
        else ChannelRead(0, v.value as real)
      case _ => ChannelRead(-1, 0.0)
  }

  function GetChannelValueAsString(attrs: seq<Chan>, index: int, strict: bool): (r: ChannelRead<string>)
    ensures r.code in {0, -1, -2, -3}
    ensures r.code != 0 ==> r.out == ""
    ensures r.code == -2 <==> index < 0
    ensures index >= 0 && ChanAt(attrs, index).StringChan? ==>
      r == (match ChanAt(attrs, index).stringValue
            case None => ChannelRead(-3, "")
            case Some(s) => ChannelRead(0, s))
    ensures index >= 0 && ChanAt(attrs, index).IntChan? ==>
      r == (if strict then ChannelRead(-1, "")
            else match ChanAt(attrs, index).intValue
              case None => ChannelRead(-3, "")
              case Some(i) => ChannelRead(0, Text.Decimal(i)))
    ensures index >= 0 && ChanAt(attrs, index).FloatChan? ==>
      r == (if strict then ChannelRead(-1, "")
            else match ChanAt(attrs, index).floatValue
              case None => ChannelRead(-3, "")
              case Some(f) => ChannelRead(0, Text.FormatFixed(f)))
    ensures index >= 0 && (ChanAt(attrs, index).ObjectChan? || ChanAt(attrs, index).OtherChan?) ==>
      r == ChannelRead(-1, "")
    ensures r.code == 0 && strict ==> ChanAt(attrs, index).StringChan?
    ensures r.code == 0 ==> !ChanAt(attrs, index).ObjectChan? && !ChanAt(attrs, index).OtherChan?
  {
    if index < 0 then ChannelRead(-2, "")
    else match ChanAt(attrs, index)
      case StringChan(v) =>
        if v.None? then ChannelRead(-3, "") else ChannelRead(0, v.value)
      case IntChan(v) =>
        if strict then ChannelRead(-1, "")
        else if v.None? then ChannelRead(-3, "")
        else ChannelRead(0, Text.Decimal(v.value))
      case FloatChan(v) =>
        if strict then ChannelRead(-1, "")
        else if v.None? then ChannelRead(-3, "")
        else ChannelRead(0, Text.FormatFixed(v.value))
      case _ => ChannelRead(-1, "")
  }

  /** Dropping `strict` only turns a type mismatch into a conversion: a
      strict read that did not report -1 reads the same without `strict`. */
  lemma StrictReadsAgreeWithLoose(attrs: seq<Chan>, index: int)
    ensures GetChannelValueAsBoolean(attrs, index, true).code != -1 ==>
      GetChannelValueAsBoolean(attrs, index, false) == GetChannelValueAsBoolean(attrs, index, true)
    ensures GetChannelValueAsInteger(attrs, index, true).code != -1 ==>
      GetChannelValueAsInteger(attrs, index, false) == GetChannelValueAsInteger(attrs, index, true)
    ensures GetChannelValueAsFloat(attrs, index, true).code != -1 ==>
      GetChannelValueAsFloat(attrs, index, false) == GetChannelValueAsFloat(attrs, index, true)
    ensures GetChannelValueAsString(attrs, index, true).code != -1 ==>
      GetChannelValueAsString(attrs, index, false) == GetChannelValueAsString(attrs, index, true)
  {
  }

  /** A numeric channel read as a string denotes the number it holds: an
      integer exactly, a float to within half a unit in the sixth
      decimal. */
  lemma StringReadDenotesNumber(attrs: seq<Chan>, index: int)
    requires index >= 0
    ensures ChanAt(attrs, index).IntChan? && ChanAt(attrs, index).intValue.Some? ==>
      var r := GetChannelValueAsString(attrs, index, false);
      r.code == 0 && Text.ParseDecimal(r.out) == Some(ChanAt(attrs, index).intValue.value as int)
    ensures ChanAt(attrs, index).FloatChan? && ChanAt(attrs, index).floatValue.Some? ==>
      var r := GetChannelValueAsString(attrs, index, false);
      var f := ChanAt(attrs, index).floatValue.value;
      r.code == 0 && Text.ParseFixed(r.out).Some? && -0.0000005 <= Text.ParseFixed(r.out).value - f <= 0.0000005
  {
    match ChanAt(attrs, index)
    case IntChan(v) =>
      if v.Some? {
        Text.DecimalRoundTrip(v.value);
      }
    case FloatChan(v) =>
      if v.Some? {
        Text.FormatFixedRoundTrip(v.value);
      }
    case _ =>
  }

  /** The read of component `i` of an aggregate starting at `index`. */
  function ComponentRead(attrs: seq<Chan>, index: int, componentStrict: bool, i: nat): ChannelRead<real> {
    GetChannelValueAsFloat(attrs, index + i, componentStrict)
  }

  /** Components 0 to `n - 1` all read, and `out` holds their values. */
  predicate AllComponentsRead(attrs: seq<Chan>, index: int, componentStrict: bool, n: nat, out: seq<real>) {
    |out| == n && forall i :: 0 <= i < n ==> ComponentRead(attrs, index, componentStrict, i) == ChannelRead(0, out[i])
  }

  /** Component `k < n` is the first one that fails, and it fails with
      `code`. */
  predicate FirstFailure(attrs: seq<Chan>, index: int, componentStrict: bool, n: nat, code: int) {
    exists k :: (
      && 0 <= k < n
      && ComponentRead(attrs, index, componentStrict, k).code == code
      && forall i :: 0 <= i < k ==> ComponentRead(attrs, index, componentStrict, i).code == 0)
  }

  /** The loop shared by the vector and colour readers: `n` float reads at
      consecutive indices, all or nothing. The component reads use the
      float reader's default `strict` argument, given here as
      `componentStrict`. */
  method GetChannelValueAsFloats(attrs: seq<Chan>, index: int, n: nat, componentStrict: bool)
    returns (code: int, out: seq<real>)
    ensures code in {0, -1, -2, -3}
    ensures code == 0 ==> AllComponentsRead(attrs, index, componentStrict, n, out)
    ensures code != 0 ==> out == [] && FirstFailure(attrs, index, componentStrict, n, code)
  {
    out := [];
    var i := 0;
    while i < n
      invariant 0 <= i <= n
      invariant |out| == i
      invariant forall j :: 0 <= j < i ==> ComponentRead(attrs, index, componentStrict, j) == ChannelRead(0, out[j])
    {
      var read := GetChannelValueAsFloat(attrs, index + i, componentStrict);
      if read.code != 0 {
        assert ComponentRead(attrs, index, componentStrict, i).code == read.code;
        out := [];
        return read.code, out;
      }
      out := out + [read.out];
      i := i + 1;
    }
    code := 0;
  }

  method GetChannelValueAsVector2(attrs: seq<Chan>, index: int, componentStrict: bool)
    returns (code: int, out: seq<real>)
    ensures code in {0, -1, -2, -3}
    ensures code == 0 ==> AllComponentsRead(attrs, index, componentStrict, 2, out)
    ensures code != 0 ==> out == [] && FirstFailure(attrs, index, componentStrict, 2, code)
  {
    code, out := GetChannelValueAsFloats(attrs, index, 2, componentStrict);
  }

  method GetChannelValueAsVector3(attrs: seq<Chan>, index: int, componentStrict: bool)
    returns (code: int, out: seq<real>)
    ensures code in {0, -1, -2, -3}
    ensures code == 0 ==> AllComponentsRead(attrs, index, componentStrict, 3, out)
    ensures code != 0 ==> out == [] && FirstFailure(attrs, index, componentStrict, 3, code)
  {
    code, out := GetChannelValueAsFloats(attrs, index, 3, componentStrict);
  }

  method GetChannelValueAsRGB(attrs: seq<Chan>, index: int, componentStrict: bool)
    returns (code: int, out: seq<real>)
    ensures code in {0, -1, -2, -3}
    ensures code == 0 ==> AllComponentsRead(attrs, index, componentStrict, 3, out)
    ensures code != 0 ==> out == [] && FirstFailure(attrs, index, componentStrict, 3, code)
  {
    code, out := GetChannelValueAsFloats(attrs, index, 3, componentStrict);
  }

  method GetChannelValueAsRGBA(attrs: seq<Chan>, index: int, componentStrict: bool)
    returns (code: int, out: seq<real>)
    ensures code in {0, -1, -2, -3}
    ensures code == 0 ==> AllComponentsRead(attrs, index, componentStrict, 4, out)
    ensures code != 0 ==> out == [] && FirstFailure(attrs, index, componentStrict, 4, code)
  {
    code, out := GetChannelValueAsFloats(attrs, index, 4, componentStrict);
  }

  /** `GetChannelValueAsColor` is the RGBA reader. */
  method GetChannelValueAsColor(attrs: seq<Chan>, index: int, componentStrict: bool)
    returns (code: int, out: seq<real>)
    ensures code in {0, -1, -2, -3}
    ensures code == 0 ==> AllComponentsRead(attrs, index, componentStrict, 4, out)
    ensures code != 0 ==> out == [] && FirstFailure(attrs, index, componentStrict, 4, code)
  {
    code, out := GetChannelValueAsRGBA(attrs, index, componentStrict);
  }

  /** Reads an object channel through the quaternion interface; the four
      components come out in the order the host stores them. `strict`
      changes nothing: there is no conversion to a quaternion. */
  method GetChannelValueAsQuaternion(attrs: seq<Chan>, index: int, strict: bool)
    returns (code: int, out: seq<real>)
    ensures code in {0, -1, -2, -3}
    ensures code != 0 ==> out == []
    ensures code == -2 <==> index < 0
    ensures index >= 0 ==> (code == -1 <==> !ChanAt(attrs, index).ObjectChan?)
    ensures code == 0 <==> index >= 0 && ChanAt(attrs, index).ObjectChan? && ChanAt(attrs, index).quaternion.Some?
    ensures code == 0 ==> out == ChanAt(attrs, index).quaternion.value
  {
    out := [];
    if index < 0 {
      return -2, out;
    }
    var chan := ChanAt(attrs, index);
    if chan.ObjectChan? {
      if chan.quaternion.None? {
        return -3, out;
      }
      var q := chan.quaternion.value;
      for i := 0 to 4
        invariant out == q[..i]
      {
        out := out + [q[i]];
      }
      return 0, out;
    }
    code := -1;
  }

  /** Reads an object channel through the matrix interface. The source
      walks `m44[i][j]` with `j` in the outer loop, so the sixteen values
      come out column by column: `out[4 * j + i] == m[i][j]`. */
  method GetChannelValueAsMatrix44(attrs: seq<Chan>, index: int, strict: bool)
    returns (code: int, out: seq<real>)
    ensures code in {0, -1, -2, -3}
    ensures code != 0 ==> out == []
    ensures code == -2 <==> index < 0
    ensures index >= 0 ==> (code == -1 <==> !ChanAt(attrs, index).ObjectChan?)
    ensures code == 0 <==> index >= 0 && ChanAt(attrs, index).ObjectChan? && ChanAt(attrs, index).matrix.Some?
    ensures code == 0 ==> |out| == 16 && forall i, j :: 0 <= i < 4 && 0 <= j < 4 ==>
      out[4 * j + i] == ChanAt(attrs, index).matrix.value[i][j]
  {
    out := [];
    if index < 0 {
      return -2, out;
    }
    var chan := ChanAt(attrs, index);
    if chan.ObjectChan? {
      if chan.matrix.None? {
        return -3, out;
      }
      var m := chan.matrix.value;
      for j := 0 to 4
        invariant |out| == 4 * j
        invariant forall jj, ii :: 0 <= jj < j && 0 <= ii < 4 ==> out[4 * jj + ii] == m[ii][jj]
      {
        for i := 0 to 4
          invariant |out| == 4 * j + i
          invariant forall jj, ii :: 0 <= jj < j && 0 <= ii < 4 ==> out[4 * jj + ii] == m[ii][jj]
          invariant forall ii :: 0 <= ii < i ==> out[4 * j + ii] == m[ii][j]
        {
          out := out + [m[i][j]];
        }
      }
      return 0, out;
    }
    code := -1;
  }
}
