/** The port value readers of the Canvas bridge: reading a graph port's
    value as a boolean, integer, float, string, quaternion or 4x4 matrix.
    The result codes are 0 success, -1 no viable conversion (or an empty
    type name), -2 invalid port, -3 type recognised but not implemented,
    -4 the engine threw. Every reader resets its output first. */
module PortReaders {
  import opened Wrappers
  import opened Numerics
  import Text

  /** A port's value as the engine hands it out. `Unavailable`: fetching
      the value throws. A typed getter succeeds only on a payload of its
      own type name and throws on any other. A matrix cell is `None` when
      its row member or its Float64 getter throws. */
  datatype RTVal =
    | Unavailable
    | BoolVal(b: bool)
    | IntVal(intType: string, i: int)
    | FloatVal(floatType: string, f: real)
    | StringVal(s: string)
    | Mat44Val(rows: seq<seq<Option<real>>>)
    | OtherVal

  datatype Port = Port(valid: bool, name: string, dataType: string, value: RTVal)

  datatype PortRead<T> = PortRead(code: int, out: T)

  const IntegerTypes: set<string> := {"SInt8", "SInt16", "SInt32", "SInt64", "UInt8", "UInt16", "UInt32", "UInt64"}
  const FloatTypes: set<string> := {"Float32", "Float64"}

  /** `getBoolean()`, `getSInt8()` ... `getUInt64()`, `getFloat32()`,
      `getFloat64()`: `None` when the getter throws. */
  function GetBool(v: RTVal): Option<bool> {
    if v.BoolVal? then Some(v.b) else None
  }

  function GetInt(v: RTVal, typeName: string): Option<int> {
    if v.IntVal? && v.intType == typeName then Some(v.i) else None
  }

  function GetFloat(v: RTVal, typeName: string): Option<real> {
    if v.FloatVal? && v.floatType == typeName then Some(v.f) else None
  }

  /** The value is fetched before the type name is examined, so a value
      that cannot be fetched gives -4 even for an empty type name. */
  function GetPortValueAsBoolean(port: Port, strict: bool): (r: PortRead<bool>)
    ensures r.code in {0, -1, -2, -4}
    ensures r.code != 0 ==> r.out == false
    ensures r.code == -2 <==> !port.valid
    ensures port.valid && port.value.Unavailable? ==> r.code == -4
    ensures port.valid && !port.value.Unavailable? && port.dataType == "" ==> r.code == -1
    ensures r.code == 0 && strict ==> port.dataType == "Boolean"
    ensures r.code == 0 ==>
      if port.dataType == "Boolean" then GetBool(port.value) == Some(r.out)
      else if port.dataType in FloatTypes then
        GetFloat(port.value, port.dataType).Some? && r.out == (GetFloat(port.value, port.dataType).value != 0.0)
      else
        port.dataType in IntegerTypes && GetInt(port.value, port.dataType).Some?
        && r.out == (GetInt(port.value, port.dataType).value != 0)
    ensures port.valid && !port.value.Unavailable? && port.dataType == "Boolean" ==>
      r == (if port.value.BoolVal? then PortRead(0, port.value.b) else PortRead(-4, false))
    ensures strict && port.valid && !port.value.Unavailable? && port.dataType != "Boolean" ==> r == PortRead(-1, false)
    ensures !strict && port.valid && !port.value.Unavailable? && port.dataType in FloatTypes ==>
      r == (match GetFloat(port.value, port.dataType)
            case None => PortRead(-4, false)
            case Some(f) => PortRead(0, f != 0.0))
    ensures !strict && port.valid && !port.value.Unavailable? && port.dataType in IntegerTypes ==>
      r == (match GetInt(port.value, port.dataType)
            case None => PortRead(-4, false)
            case Some(i) => PortRead(0, i != 0))
    ensures (&& port.valid && !port.value.Unavailable? && port.dataType != "Boolean"
             && port.dataType !in FloatTypes && port.dataType !in IntegerTypes) ==> r == PortRead(-1, false)
  {
    if !port.valid then PortRead(-2, false)
    else if port.value.Unavailable? then PortRead(-4, false)
    else if port.dataType == "" then PortRead(-1, false)
    else if port.dataType == "Boolean" then
      match GetBool(port.value)
      case None => PortRead(-4, false)
      case Some(b) => PortRead(0, b)
    else if !strict then
      if port.dataType in FloatTypes then
        match GetFloat(port.value, port.dataType)
        case None => PortRead(-4, false)
        case Some(f) => PortRead(0, f != 0.0)
      else if port.dataType in IntegerTypes then
        match GetInt(port.value, port.dataType)
        case None => PortRead(-4, false)
        case Some(i) => PortRead(0, i != 0)
      else PortRead(-1, false)
    else PortRead(-1, false)
  }

  /** Integer payloads pass through the C++ `(int)` cast, which keeps the
      low 32 bits; floats are truncated toward zero. */
  function GetPortValueAsInteger(port: Port, strict: bool): (r: PortRead<int>)
    ensures r.code in {0, -1, -2, -4}
    ensures r.code != 0 ==> r.out == 0
    ensures r.code == -2 <==> !port.valid
    ensures port.valid && port.value.Unavailable? ==> r.code == -4
    ensures port.valid && !port.value.Unavailable? && port.dataType == "" ==> r.code == -1
    ensures r.code == 0 && strict ==> port.dataType in IntegerTypes
    ensures r.code == 0 ==>
      if port.dataType in IntegerTypes then
        GetInt(port.value, port.dataType).Some? && r.out == ToInt32(GetInt(port.value, port.dataType).value)
      else if port.dataType == "Boolean" then
        GetBool(port.value).Some? && r.out == (if GetBool(port.value).value then 1 else 0)
      else
        port.dataType in FloatTypes && GetFloat(port.value, port.dataType).Some?
        && r.out == Trunc(GetFloat(port.value, port.dataType).value)
    ensures port.valid && !port.value.Unavailable? && port.dataType in IntegerTypes ==>
      r == (if GetInt(port.value, port.dataType).Some? then PortRead(0, ToInt32(port.value.i) as int) else PortRead(-4, 0))
    ensures strict && port.valid && !port.value.Unavailable? && port.dataType !in IntegerTypes ==> r == PortRead(-1, 0)
    ensures !strict && port.valid && !port.value.Unavailable? && port.dataType == "Boolean" ==>
      r == (match GetBool(port.value)
            case None => PortRead(-4, 0)
            case Some(b) => PortRead(0, if b then 1 else 0))
    ensures !strict && port.valid && !port.value.Unavailable? && port.dataType in FloatTypes ==>
      r == (match GetFloat(port.value, port.dataType)
            case None => PortRead(-4, 0)
            case Some(f) => PortRead(0, Trunc(f)))
    ensures (&& port.valid && !port.value.Unavailable? && port.dataType != "Boolean"
             && port.dataType !in FloatTypes && port.dataType !in IntegerTypes) ==> r == PortRead(-1, 0)
  {
    if !port.valid then PortRead(-2, 0)
    else if port.value.Unavailable? then PortRead(-4, 0)
    else if port.dataType == "" then PortRead(-1, 0)
    else if port.dataType in IntegerTypes then
      match GetInt(port.value, port.dataType)
      case None => PortRead(-4, 0)
      case Some(i) => PortRead(0, ToInt32(i) as int)
    else if !strict then
      if port.dataType == "Boolean" then
        match GetBool(port.value)
        case None => PortRead(-4, 0)
        case Some(b) => PortRead(0, if b then 1 else 0)
      else if port.dataType in FloatTypes then
        match GetFloat(port.value, port.dataType)
        case None => PortRead(-4, 0)
        case Some(f) => PortRead(0, Trunc(f))
      else PortRead(-1, 0)
    else PortRead(-1, 0)
  }

  function GetPortValueAsFloat(port: Port, strict: bool): (r: PortRead<real>)
    ensures r.code in {0, -1, -2, -4}
    ensures r.code != 0 ==> r.out == 0.0
    ensures r.code == -2 <==> !port.valid
    ensures port.valid && port.value.Unavailable? ==> r.code == -4
    ensures port.valid && !port.value.Unavailable? && port.dataType == "" ==> r.code == -1
    ensures r.code == 0 && strict ==> port.dataType in FloatTypes
    ensures r.code == 0 ==>
      if port.dataType in FloatTypes then GetFloat(port.value, port.dataType) == Some(r.out)
      else if port.dataType == "Boolean" then
        GetBool(port.value).Some? && r.out == (if GetBool(port.value).value then 1.0 else 0.0)
      else
        port.dataType in IntegerTypes && GetInt(port.value, port.dataType).Some?
        && r.out == GetInt(port.value, port.dataType).value as real
    ensures port.valid && !port.value.Unavailable? && port.dataType in FloatTypes ==>
      r == (if GetFloat(port.value, port.dataType).Some? then PortRead(0, port.value.f) else PortRead(-4, 0.0))
    ensures strict && port.valid && !port.value.Unavailable? && port.dataType !in FloatTypes ==> r == PortRead(-1, 0.0)
    ensures !strict && port.valid && !port.value.Unavailable? && port.dataType == "Boolean" ==>
      r == (match GetBool(port.value)
            case None => PortRead(-4, 0.0)
            case Some(b) => PortRead(0, if b then 1.0 else 0.0))
    ensures !strict && port.valid && !port.value.Unavailable? && port.dataType in IntegerTypes ==>
      r == (match GetInt(port.value, port.dataType)
            case None => PortRead(-4, 0.0)
            case Some(i) => PortRead(0, i as real))
    ensures (&& port.valid && !port.value.Unavailable? && port.dataType != "Boolean"
             && port.dataType !in FloatTypes && port.dataType !in IntegerTypes) ==> r == PortRead(-1, 0.0)
  {
    if !port.valid then PortRead(-2, 0.0)
    else if port.value.Unavailable? then PortRead(-4, 0.0)
    else if port.dataType == "" then PortRead(-1, 0.0)
    else if port.dataType in FloatTypes then
      match GetFloat(port.value, port.dataType)
      case None => PortRead(-4, 0.0)
      case Some(f) => PortRead(0, f)
    else if !strict then
      if port.dataType == "Boolean" then
        match GetBool(port.value)
        case None => PortRead(-4, 0.0)
        case Some(b) => PortRead(0, if b then 1.0 else 0.0)
      else if port.dataType in IntegerTypes then
        match GetInt(port.value, port.dataType)
        case None => PortRead(-4, 0.0)
        case Some(i) => PortRead(0, i as real)
      else PortRead(-1, 0.0)
    else PortRead(-1, 0.0)
  }

  /** A "String" port is read through its C string, so the text stops at
      the first NUL. Without `strict`, any other type is tried with the
      strict boolean, integer and float readers in turn; a getter that
      throws inside those only makes that attempt fail, so the fallback
      ends in -1, never in -4. */
  function GetPortValueAsString(port: Port, strict: bool): (r: PortRead<string>)
    ensures r.code in {0, -1, -2, -4}
    ensures r.code != 0 ==> r.out == ""
    ensures r.code == -2 <==> !port.valid
    ensures r.code == -4 <==> port.valid && (port.value.Unavailable? || (port.dataType == "String" && !port.value.StringVal?))
    ensures r.code == 0 && strict ==> port.dataType == "String"
    ensures r.code == 0 && port.dataType == "String" ==> r.out == Text.CStr(port.value.s)
    ensures port.valid && port.dataType == "String" && port.value.StringVal? ==> r == PortRead(0, Text.CStr(port.value.s))
    ensures strict && port.valid && !port.value.Unavailable? && port.dataType != "String" ==> r == PortRead(-1, "")
    ensures !strict && port.valid && !port.value.Unavailable? && port.dataType != "String" ==>
      (r.code == 0 <==>
        || GetPortValueAsBoolean(port, true).code == 0
        || GetPortValueAsInteger(port, true).code == 0
        || GetPortValueAsFloat(port, true).code == 0)
    ensures !strict && port.valid && GetPortValueAsBoolean(port, true).code == 0 ==>
      r == PortRead(0, if GetPortValueAsBoolean(port, true).out then "true" else "false")
  {
    if !port.valid then PortRead(-2, "")
    else if port.value.Unavailable? then PortRead(-4, "")
    else if port.dataType == "" then PortRead(-1, "")
    else if port.dataType == "String" then
      if port.value.StringVal? then PortRead(0, Text.CStr(port.value.s)) else PortRead(-4, "")
    else if !strict then
      var b := GetPortValueAsBoolean(port, true);
      if b.code == 0 then PortRead(0, if b.out then "true" else "false")
      else
        var i := GetPortValueAsInteger(port, true);
        if i.code == 0 then PortRead(0, Text.Decimal(i.out))
        else
          var f := GetPortValueAsFloat(port, true);
          if f.code == 0 then PortRead(0, Text.FormatFixed(f.out))
          else PortRead(-1, "")
    else PortRead(-1, "")
  }

  /** Quaternion ports are recognised but not implemented: "Quat" gives -3
      and the output stays empty whatever the outcome. */
  function GetPortValueAsQuaternion(port: Port, strict: bool): (r: PortRead<seq<real>>)
    ensures r.out == []
    ensures r.code == -2 <==> !port.valid
    ensures r.code == -4 <==> port.valid && port.value.Unavailable?
    ensures r.code == -3 <==> port.valid && !port.value.Unavailable? && port.dataType == "Quat"
    ensures r.code == -1 <==> port.valid && !port.value.Unavailable? && port.dataType != "Quat"
  {
    if !port.valid then PortRead(-2, [])
    else if port.value.Unavailable? then PortRead(-4, [])
    else if port.dataType == "" then PortRead(-1, [])
    else if port.dataType == "Quat" then PortRead(-3, [])
    else PortRead(-1, [])
  }

  /** The value of member `c` (x, y, z, t) of member `row<r>` of a Mat44
      value, as a Float64; `None` when it cannot be read. */
  function MatrixCell(v: RTVal, r: nat, c: nat): Option<real> {
    if v.Mat44Val? && r < |v.rows| && c < |v.rows[r]| then v.rows[r][c] else None
  }

  /** The sixteen cells, row0 to row3, each as x, y, z, t. */
  predicate AllCellsRead(v: RTVal) {
    forall k :: 0 <= k < 16 ==> MatrixCell(v, k / 4, k % 4).Some?
  }

  /** On success the output holds the sixteen cells row by row. When a
      cell read throws, the reader returns -4 but keeps the cells pushed
      before it. */
  method GetPortValueAsMatrix44(port: Port, strict: bool) returns (code: int, out: seq<real>)
    ensures code in {0, -1, -2, -4}
    ensures code == -2 <==> !port.valid
    ensures code == 0 <==> port.valid && !port.value.Unavailable? && port.dataType == "Mat44" && AllCellsRead(port.value)
    ensures code == -1 <==> port.valid && !port.value.Unavailable? && port.dataType != "Mat44"
    ensures code == 0 ==> |out| == 16 && forall k :: 0 <= k < 16 ==> MatrixCell(port.value, k / 4, k % 4) == Some(out[k])
    ensures code == -4 ==> (
      && |out| < 16
      && MatrixCell(port.value, |out| / 4, |out| % 4).None?
      && forall k :: 0 <= k < |out| ==> MatrixCell(port.value, k / 4, k % 4) == Some(out[k]))
    ensures code != 0 && code != -4 ==> out == []
  {
    out := [];
    if !port.valid {
      return -2, out;
    }
    if port.value.Unavailable? {
      return -4, out;
    }
    if port.dataType != "Mat44" {
      return -1, out;
    }
    var k := 0;
    while k < 16
      invariant 0 <= k <= 16
      invariant |out| == k
      invariant forall j :: 0 <= j < k ==> MatrixCell(port.value, j / 4, j % 4) == Some(out[j])
    {
      var cell := MatrixCell(port.value, k / 4, k % 4);
      if cell.None? {
        return -4, out;
      }
      out := out + [cell.value];
      k := k + 1;
    }
    code := 0;
  }

  /** Dropping `strict` only turns a type mismatch into a conversion. */
  lemma StrictPortReadsAgreeWithLoose(port: Port)
    ensures GetPortValueAsBoolean(port, true).code != -1 ==>
      GetPortValueAsBoolean(port, false) == GetPortValueAsBoolean(port, true)
    ensures GetPortValueAsInteger(port, true).code != -1 ==>
      GetPortValueAsInteger(port, false) == GetPortValueAsInteger(port, true)
    ensures GetPortValueAsFloat(port, true).code != -1 ==>
      GetPortValueAsFloat(port, false) == GetPortValueAsFloat(port, true)
    ensures GetPortValueAsString(port, true).code != -1 ==>
      GetPortValueAsString(port, false) == GetPortValueAsString(port, true)
  {
  }

  /** A readable port of a numeric or boolean type always reads as a
      string without `strict`, and the string says what the value is: a
      Boolean as "true" or "false", an integer as the decimal of its
      32-bit cast, a float to within half a unit in the sixth decimal. */
  lemma LooseStringDenotesValue(port: Port)
    requires port.valid
    ensures port.dataType == "Boolean" && port.value.BoolVal? ==>
      GetPortValueAsString(port, false) == PortRead(0, if port.value.b then "true" else "false")
    ensures port.dataType in IntegerTypes && GetInt(port.value, port.dataType).Some? ==>
      var r := GetPortValueAsString(port, false);
      r.code == 0 && Text.ParseDecimal(r.out) == Some(ToInt32(port.value.i) as int)
    ensures port.dataType in FloatTypes && GetFloat(port.value, port.dataType).Some? ==>
      var r := GetPortValueAsString(port, false);
      r.code == 0 && Text.ParseFixed(r.out).Some? && -0.0000005 <= Text.ParseFixed(r.out).value - port.value.f <= 0.0000005
  {
    if port.dataType in IntegerTypes && GetInt(port.value, port.dataType).Some? {
      Text.DecimalRoundTrip(ToInt32(port.value.i));
    }
    if port.dataType in FloatTypes && GetFloat(port.value, port.dataType).Some? {
      Text.FormatFixedRoundTrip(port.value.f);
    }
  }
}
