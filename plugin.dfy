/** The plugin's log message shaping: how a message reaches the host log
    (`dccLogMessage`, cropped at 1000 characters), the prefixes and
    severities of `feLog` and `feLogError`, the text `feLogDebug` appends,
    and the client-persistence flag read from the environment. The log
    sinks themselves are the host's; each function returns what it hands
    them. */
module Plugin {
  import opened Wrappers
  import opened Numerics
  import Text

  datatype Severity = Info | Failed

  /** One message handed to the host log: severity, prefix, text. */
  datatype LogEntry = LogEntry(severity: Severity, prefix: string, text: string)

  /** What one call of a log function hands to the host log and to the
      Canvas log widget. */
  datatype LogOutput = LogOutput(entry: LogEntry, widget: string)

  const CropLength: nat := 1000
  const CropNotice: string := " [long message, only first 1000 characters displayed]"
  const NullText: string := "s == NULL"
  const InfoPrefix: string := "[FABRIC]"
  const ErrorPrefix: string := "[FABRIC ERROR]"
  const WidgetErrorPrefix: string := "Error: "

  /** The text `dccLogMessage` gives the host log for `message`. */
  function CropMessage(message: string): (r: string)
    ensures |message| <= CropLength ==> r == message
    ensures |message| > CropLength ==> |r| == CropLength + |CropNotice|
    ensures |message| > CropLength ==> r[..CropLength] == message[..CropLength]
    ensures |message| > CropLength ==> r[CropLength..] == CropNotice
  {
    if |message| <= CropLength then message
    else message[..CropLength] + CropNotice
  }

  /** The host log never shows more than 1000 characters of a message,
      plus the notice. */
  lemma CropBound(message: string)
    ensures |CropMessage(message)| <= CropLength + |CropNotice|
    ensures |CropMessage(message)| <= |message| || |message| > CropLength
  {
  }

  /** Cropping a cropped message changes nothing: the notice is cut off
      and put back. */
  lemma CropIdempotent(message: string)
    ensures CropMessage(CropMessage(message)) == CropMessage(message)
  {
    if |message| > CropLength {
      var r := CropMessage(message);
      assert r[..CropLength] == message[..CropLength];
      assert r[..CropLength] + CropNotice == r;
    }
  }

  function DccLogMessage(severity: Severity, prefix: string, message: string): (r: LogEntry)
    ensures r.severity == severity && r.prefix == prefix
    ensures r.text == CropMessage(message)
  {
    LogEntry(severity, prefix, CropMessage(message))
  }

  /** The C string a log function prints for its `const char *` argument;
      `None` is a NULL pointer. */
  function MessageText(s: Option<string>): (p: string)
    ensures s.None? ==> p == NullText
    ensures s.Some? ==> p == Text.CStr(s.value)
  {
    match s
    case None => NullText
    case Some(t) => Text.CStr(t)
  }

  /** `feLog(userData, s, length)`; `length` is ignored by the source. */
  function FeLog(s: Option<string>): (r: LogOutput)
    ensures r.entry == DccLogMessage(Info, InfoPrefix, MessageText(s))
    ensures r.widget == MessageText(s)
  {
    var p := MessageText(s);
    LogOutput(DccLogMessage(Info, InfoPrefix, p), p)
  }

  /** `feLogError(userData, s, length)`. */
  function FeLogError(s: Option<string>): (r: LogOutput)
    ensures r.entry == DccLogMessage(Failed, ErrorPrefix, MessageText(s))
    ensures r.widget == WidgetErrorPrefix + MessageText(s)
  {
    var p := MessageText(s);
    LogOutput(DccLogMessage(Failed, ErrorPrefix, p), WidgetErrorPrefix + p)
  }

  /** The `std::string` overloads pass `s.c_str()`, which is never NULL. */
  function FeLogString(s: string): (r: LogOutput)
    ensures r == FeLog(Some(s))
    ensures NUL !in s ==> r.widget == s
  {
    FeLog(Some(s))
  }

  /** The `std::string` overloads of `feLogError`, likewise never NULL. */
  function FeLogErrorString(s: string): (r: LogOutput)
    ensures r == FeLogError(Some(s))
    ensures NUL !in s ==> r.widget == WidgetErrorPrefix + s
  {
    FeLogError(Some(s))
  }

  const NUL: char := Text.NUL

  /** `feLogDebug(s, number)`: `s` followed by `" number = %d"`, logged
      at info severity. */
  function FeLogDebug(s: string, number: Int32): (r: LogOutput)
    ensures r.entry == DccLogMessage(Info, InfoPrefix, r.widget)
    ensures r.widget == Text.CStr(s + " number = " + Text.Decimal(number))
    ensures NUL in s ==> r.widget == Text.CStr(s)
  {
    Text.CStrStopsAtNul(s, " number = " + Text.Decimal(number));
    assert s + " number = " + Text.Decimal(number) == s + (" number = " + Text.Decimal(number));
    FeLogString(s + " number = " + Text.Decimal(number))
  }

  /** An error and an info message for the same text differ only in
      severity, prefix and the widget's "Error: " marker. */
  lemma ErrorMirrorsInfo(s: Option<string>)
    ensures FeLogError(s).entry.text == FeLog(s).entry.text
    ensures FeLogError(s).entry.severity == Failed && FeLog(s).entry.severity == Info
    ensures FeLogError(s).widget == WidgetErrorPrefix + FeLog(s).widget
  {
  }

  /** A NULL message is logged as the fixed text "s == NULL", at either
      severity. */
  lemma NullMessages()
    ensures FeLog(None).entry == LogEntry(Info, InfoPrefix, NullText)
    ensures FeLogError(None).entry == LogEntry(Failed, ErrorPrefix, NullText)
    ensures FeLogError(None).widget == "Error: s == NULL"
  {
  }

  /** The number `feLogDebug` appends can be read back from the widget
      text when `s` holds no NUL. */
  lemma DebugNumberReadable(s: string, number: Int32)
    requires NUL !in s
    ensures var w := FeLogDebug(s, number).widget;
      |w| >= |s| + 10 && w[..|s|] == s && w[|s|..|s| + 10] == " number = "
      && Text.ParseDecimal(w[|s| + 10..]) == Some(number as int)
  {
    var d := Text.Decimal(number);
    var t := s + " number = " + d;
    assert NUL !in d by {
      forall i | 0 <= i < |d| ensures d[i] != NUL {
        if number < 0 {
          assert d == "-" + Text.NatDigits(-(number as int));
          if i > 0 { assert d[i] == Text.NatDigits(-(number as int))[i - 1]; }
        }
      }
    }
    assert NUL !in t;
    Text.CStrOfPlain(t);
    assert t[|s| + 10..] == d;
    Text.DecimalRoundTrip(number);
  }

  /** `setPersistClient(!v || v[0] == '\0')` for the value `v` of
      FABRIC_DISABLE_CLIENT_PERSISTENCE; `None` is an unset variable. */
  function PersistClient(env: Option<string>): (persist: bool)
    ensures persist <==> env.None? || Text.CStr(env.value) == ""
  {
    env.None? || env.value == [] || env.value[0] == NUL
  }
}
