/** Configuration constants, the queue entry, the command payload and the
    text of the connection-failure entry of the drone-control MQTT page.
 */
module Wire {

  datatype Option<+T> = None | Some(value: T)

  // Broker and topic configuration.
  const BrokerHost: string := "broker.emqx.io"
  const BrokerPort: int := 1883
  const KeepaliveSeconds: int := 60
  const TopicCommand: string := "mavsdk/command"
  const TopicStatus: string := "mavsdk/status"
  const TopicTelemetry: string := "mavsdk/telemetry"

  /** Topic of the entries the page itself puts on the queue. */
  const TopicSystem: string := "SYSTEM"

  /** One `(topic, payload)` pair of the incoming-message queue. */
  datatype Entry = Entry(topic: string, payload: string)

  // ---------------------------------------------------------------------------
  // Command payload

  /** The two commands the page can send. */
  datatype Action = Land | Brake

  /** Value of the `action` key. */
  function ActionName(a: Action): string
  {
    match a
    case Land => "LAND"
    case Brake => "BRAKE"
  }

  /** Value of the `mavsdk_command` key: the call the vehicle side makes. */
  function MavsdkCall(a: Action): string
  {
    match a
    case Land => "action.land()"
    case Brake => "action.hold()"
  }

  /** A payload value is a string or an integer (the millisecond timestamp). */
  datatype Value = Str(s: string) | Int(n: int)

  /** A dictionary with its insertion order kept, as a list of key/value pairs. */
  type Payload = seq<(string, Value)>

  const PayloadKeys: seq<string> := ["action", "timestamp", "source", "mavsdk_command", "priority"]

  function Keys(p: Payload): (ks: seq<string>)
    ensures |ks| == |p|
    ensures forall i :: 0 <= i < |p| ==> ks[i] == p[i].0
  {
    if p == [] then [] else [p[0].0] + Keys(p[1..])
  }

  /** Dictionary lookup: the value of the first pair whose key is `k`. */
  function Lookup(p: Payload, k: string): Option<Value>
  {
    if p == [] then None
    else if p[0].0 == k then Some(p[0].1)
    else Lookup(p[1..], k)
  }

  /** In a list whose key at `i` occurs at no earlier position, looking that
      key up yields the value at `i`. */
  lemma {:induction false} LookupAt(p: Payload, i: nat)
    requires i < |p|
    requires forall j :: 0 <= j < i ==> p[j].0 != p[i].0
    ensures Lookup(p, p[i].0) == Some(p[i].1)
  {
    if i > 0 {
      LookupAt(p[1..], i - 1);
    }
  }

  /** The dictionary published on the command topic for action `a` issued at
      `millis` milliseconds since the epoch: exactly five keys in a fixed order,
      and each key reads back the value the sender meant. */
  function CommandPayload(a: Action, millis: int): (p: Payload)
    ensures Keys(p) == PayloadKeys
    ensures Lookup(p, "action") == Some(Str(ActionName(a)))
    ensures Lookup(p, "timestamp") == Some(Int(millis))
    ensures Lookup(p, "source") == Some(Str("streamlit_app"))
    ensures Lookup(p, "mavsdk_command") == Some(Str(MavsdkCall(a)))
    ensures Lookup(p, "priority") == Some(Str("high"))
  {
    var p := [("action", Str(ActionName(a))),
              ("timestamp", Int(millis)),
              ("source", Str("streamlit_app")),
              ("mavsdk_command", Str(MavsdkCall(a))),
              ("priority", Str("high"))];
    LookupAt(p, 2);
    LookupAt(p, 3);
    LookupAt(p, 4);
    p
  }

  /** Two payloads are equal only when they carry the same command issued at
      the same millisecond: a receiver can tell Land from Brake and read the
      issue time back. */
  lemma CommandPayloadInjective(a1: Action, m1: int, a2: Action, m2: int)
    requires CommandPayload(a1, m1) == CommandPayload(a2, m2)
    ensures a1 == a2 && m1 == m2
  {
    assert Lookup(CommandPayload(a1, m1), "action") == Some(Str(ActionName(a1)));
    assert Lookup(CommandPayload(a1, m1), "timestamp") == Some(Int(m1));
  }

  // ---------------------------------------------------------------------------
  // Decimal text of the connect result code

  predicate IsDigit(c: char) { '0' <= c <= '9' }

  predicate AllDigits(s: string) { forall i :: 0 <= i < |s| ==> IsDigit(s[i]) }

  function DigitChar(d: nat): (c: char)
    requires d < 10
    ensures IsDigit(c) && c as int - '0' as int == d
  {
    ('0' as int + d) as char
  }

  /** Decimal digits of `n`, most significant first, without leading zeros. */
  function NatToDecimal(n: nat): (s: string)
    ensures |s| >= 1 && AllDigits(s)
    ensures |s| > 1 ==> s[0] != '0'
  {
    if n < 10 then [DigitChar(n)] else NatToDecimal(n / 10) + [DigitChar(n % 10)]
  }

  /** Python's `str` of an integer: an optional minus sign, then digits. */
  function IntToDecimal(i: int): string
  {
    if i < 0 then "-" + NatToDecimal(-i) else NatToDecimal(i)
  }

  /** The number a string of decimal digits denotes. */
  function DecimalValue(s: string): nat
    requires AllDigits(s)
  {
    if s == [] then 0
    else 10 * DecimalValue(s[..|s| - 1]) + (s[|s| - 1] as int - '0' as int)
  }

  /** Reads an integer back from its decimal text; `None` when `s` is not one. */
  function ParseInt(s: string): Option<int>
  {
    if |s| > 1 && s[0] == '-' && AllDigits(s[1..]) then
      var magnitude: int := DecimalValue(s[1..]); Some(-magnitude)
    else if |s| > 0 && AllDigits(s) then Some(DecimalValue(s))
    else None
  }

  lemma {:induction false} NatToDecimalValue(n: nat)
    ensures DecimalValue(NatToDecimal(n)) == n
  {
    var s := NatToDecimal(n);
    if n < 10 {
      assert s[..|s| - 1] == [];
    } else {
      assert s[..|s| - 1] == NatToDecimal(n / 10);
      NatToDecimalValue(n / 10);
    }
  }

  /** The decimal text of every integer reads back as that integer. */
  lemma {:induction false} IntToDecimalRoundTrip(i: int)
    ensures ParseInt(IntToDecimal(i)) == Some(i)
  {
    var s := IntToDecimal(i);
    if i < 0 {
      var digits := NatToDecimal(-i);
      assert s[1..] == digits;
      NatToDecimalValue(-i);
    } else {
      assert s == NatToDecimal(i);
      assert IsDigit(s[0]);
      NatToDecimalValue(i);
    }
  }

  const FailurePrefix: string := "Connection failed (rc="

  /** Payload of the `SYSTEM` entry queued when the broker refuses the
      connection with result code `rc`. */
  function FailureText(rc: int): (text: string)
    ensures |text| > |FailurePrefix| + 1
    ensures text[..|FailurePrefix|] == FailurePrefix && text[|text| - 1] == ')'
    ensures AllDigits(text[|FailurePrefix|..|text| - 1]) <==> rc >= 0
  {
    var digits := IntToDecimal(rc);
    var text := FailurePrefix + digits + ")";
    assert text[..|FailurePrefix|] == FailurePrefix;
    assert text[|FailurePrefix|..|text| - 1] == digits;
    assert rc < 0 ==> !IsDigit(digits[0]);
    text
  }

  /** Reads the result code back out of a failure text. */
  function FailureCode(text: string): Option<int>
  {
    if |text| > |FailurePrefix| && text[..|FailurePrefix|] == FailurePrefix && text[|text| - 1] == ')'
    then ParseInt(text[|FailurePrefix|..|text| - 1])
    else None
  }

  /** A failure entry names the result code it was queued for. */
  lemma FailureTextRoundTrip(rc: int)
    ensures FailureCode(FailureText(rc)) == Some(rc)
  {
    var t := FailureText(rc);
    assert t[..|FailurePrefix|] == FailurePrefix;
    assert t[|FailurePrefix|..|t| - 1] == IntToDecimal(rc);
    IntToDecimalRoundTrip(rc);
  }

  /** Different refusal codes give different failure entries. */
  lemma FailureTextInjective(rc1: int, rc2: int)
    requires FailureText(rc1) == FailureText(rc2)
    ensures rc1 == rc2
  {
    FailureTextRoundTrip(rc1);
    FailureTextRoundTrip(rc2);
  }
}
