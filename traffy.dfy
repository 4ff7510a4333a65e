/**
 * The callbacks the host application hands to the Traffy widget
 * (src/scripts/traffy.ts): the reward label shown on a task card, the
 * reward-verification request sent when a task is claimed, and the two
 * hooks that do nothing observable.
 */
module Traffy {

  datatype Option<T> = None | Some(value: T)

  /** A task as the widget delivers it to the hooks. */
  datatype Task = Task(companyId: int, title: string, link: string, photoUrl: string)

  // ---------------------------------------------------------------------
  // Decimal rendering of integers, as a template literal `${n}` renders an
  // integral number, and its inverse.
  // ---------------------------------------------------------------------

  predicate IsDigit(c: char) { '0' <= c <= '9' }

  function DigitValue(c: char): (d: nat)
    requires IsDigit(c)
    ensures d < 10
  {
    (c as int) - ('0' as int)
  }

  function DigitChar(d: nat): (c: char)
    requires d < 10
    ensures IsDigit(c) && DigitValue(c) == d
  {
    (('0' as int) + d) as char
  }

  predicate AllDigits(s: string) {
    forall i :: 0 <= i < |s| ==> IsDigit(s[i])
  }

  /** A digit string in the form JavaScript prints: non-empty, no leading zero. */
  predicate CanonicalDigits(s: string) {
    |s| >= 1 && AllDigits(s) && (s[0] == '0' ==> |s| == 1)
  }

  /** The decimal digits of n, most significant first. */
  function NatToString(n: nat): (s: string)
    ensures CanonicalDigits(s)
    decreases n
  {
    if n < 10 then [DigitChar(n)] else NatToString(n / 10) + [DigitChar(n % 10)]
  }

  /** The value of a string of decimal digits (the empty string has value 0). */
  function DigitsValue(s: string): nat
    requires AllDigits(s)
  {
    if s == [] then 0 else DigitsValue(s[..|s| - 1]) * 10 + DigitValue(s[|s| - 1])
  }

  /** How `${n}` renders an integer: an optional minus sign and the digits of |n|. */
  function IntToString(n: int): string {
    if n < 0 then "-" + NatToString(-n) else NatToString(n)
  }

  /** Reads back a string produced by IntToString; rejects every other string. */
  function ParseInt(s: string): Option<int> {
    if |s| >= 2 && s[0] == '-' && CanonicalDigits(s[1..]) && s[1] != '0' then Some(0 - DigitsValue(s[1..]))
    else if CanonicalDigits(s) then Some(DigitsValue(s))
    else None
  }

  lemma {:induction false} DigitsValueOfNatToString(n: nat)
    ensures DigitsValue(NatToString(n)) == n
    decreases n
  {
    if n >= 10 {
      var s := NatToString(n);
      assert s[..|s| - 1] == NatToString(n / 10);
      DigitsValueOfNatToString(n / 10);
    }
  }

  lemma {:induction false} LeadingDigitPositive(s: string)
    requires CanonicalDigits(s) && s[0] != '0'
    ensures DigitsValue(s) >= 1
    decreases |s|
  {
    if |s| > 1 {
      var p := s[..|s| - 1];
      assert p[0] == s[0];
      LeadingDigitPositive(p);
    }
  }

  lemma {:induction false} NatToStringOfDigitsValue(s: string)
    requires CanonicalDigits(s)
    ensures NatToString(DigitsValue(s)) == s
    decreases |s|
  {
    var last := s[|s| - 1];
    assert DigitChar(DigitValue(last)) == last;
    if |s| > 1 {
      var p := s[..|s| - 1];
      assert p[0] == s[0];
      LeadingDigitPositive(p);
      NatToStringOfDigitsValue(p);
      assert s == p + [last];
    }
  }

  lemma {:induction false} ParseIntToString(n: int)
    ensures ParseInt(IntToString(n)) == Some(n)
  {
    var s := IntToString(n);
    if n < 0 {
      var d := NatToString(-n);
      assert s[1..] == d;
      LeadingDigitPositive(d);
      DigitsValueOfNatToString(-n);
    } else {
      DigitsValueOfNatToString(n);
      assert s[0] != '-';
    }
  }

  lemma {:induction false} IntToStringOfParse(s: string, n: int)
    requires ParseInt(s) == Some(n)
    ensures IntToString(n) == s
  {
    if |s| >= 2 && s[0] == '-' && CanonicalDigits(s[1..]) && s[1] != '0' {
      LeadingDigitPositive(s[1..]);
      NatToStringOfDigitsValue(s[1..]);
      assert s == "-" + s[1..];
    } else {
      NatToStringOfDigitsValue(s);
    }
  }

  /** Characters of IntToString are digits or the minus sign; never a comma. */
  lemma IntToStringChars(n: int)
    ensures forall i :: 0 <= i < |IntToString(n)| ==> IntToString(n)[i] == '-' || IsDigit(IntToString(n)[i])
  {
  }

  // ---------------------------------------------------------------------
  // formatReward and onTaskRender
  // ---------------------------------------------------------------------

  const RewardUnit := " TON"

  /** The amount onTaskRender puts on every card. */
  const RenderedReward := 12345

  function FormatReward(amount: int): (text: string)
    ensures ParseReward(text) == Some(amount)
  {
    var text := IntToString(amount) + RewardUnit;
    assert text[..|text| - |RewardUnit|] == IntToString(amount);
    ParseIntToString(amount);
    text
  }

  /** Reads the amount back out of a reward label; None for anything else. */
  function ParseReward(text: string): Option<int> {
    if |text| >= |RewardUnit| && text[|text| - |RewardUnit|..] == RewardUnit
    then ParseInt(text[..|text| - |RewardUnit|])
    else None
  }

  lemma FormatRewardOfParse(text: string, amount: int)
    requires ParseReward(text) == Some(amount)
    ensures FormatReward(amount) == text
  {
    var k := |text| - |RewardUnit|;
    IntToStringOfParse(text[..k], amount);
    assert text == text[..k] + text[k..];
  }

  lemma FormatRewardExample()
    ensures FormatReward(RenderedReward) == "12345 TON"
  {
  }

  /** The four label setters the widget offers to onTaskRender. */
  datatype Setter = ChangeReward | ChangeCardTitle | ChangeDescription | ChangeButtonCheckText

  /** One call of a setter with the text it was given. */
  datatype SetterCall = SetterCall(setter: Setter, text: string)

  /**
   * The setter calls onTaskRender makes, in order: one call of changeReward
   * with the formatted fixed amount, and none of the other three setters.
   */
  method OnTaskRender() returns (calls: seq<SetterCall>)
    ensures calls == [SetterCall(ChangeReward, "12345 TON")]
  {
    FormatRewardExample();
    calls := [SetterCall(ChangeReward, FormatReward(RenderedReward))];
  }

  // ---------------------------------------------------------------------
  // onTaskReward: the verification request and the credit decision
  // ---------------------------------------------------------------------

  /** The body of the verification request: exactly two fields. */
  datatype VerificationBody = VerificationBody(taskId: int, hash: string)

  function VerificationBodyFor(task: Task, signedToken: string): VerificationBody {
    VerificationBody(task.companyId, signedToken)
  }

  /**
   * A string JSON.stringify writes between its quotes unchanged: no quote,
   * no backslash, no control character.
   */
  predicate Unescaped(s: string) {
    forall i :: 0 <= i < |s| ==> s[i] != '"' && s[i] != '\\' && s[i] >= ' '
  }

  const BodyOpen := "{\"task_id\":"
  const BodyMiddle := ",\"hash\":\""
  const BodyClose := "\"}"

  /** JSON.stringify of the body, field order task_id then hash. */
  function EncodeBody(b: VerificationBody): string
    requires Unescaped(b.hash)
  {
    BodyOpen + IntToString(b.taskId) + BodyMiddle + b.hash + BodyClose
  }

  /** Index of the first occurrence of c in s, or |s| when there is none. */
  function IndexOf(s: string, c: char): (k: nat)
    ensures k <= |s|
    ensures forall i :: 0 <= i < k ==> s[i] != c
    ensures k < |s| ==> s[k] == c
  {
    if s == [] then 0 else if s[0] == c then 0 else 1 + IndexOf(s[1..], c)
  }

  /** The text between the braces' framing, if the text is framed as a body. */
  function Unframe(s: string): Option<string> {
    if |s| >= |BodyOpen| + |BodyClose| && s[..|BodyOpen|] == BodyOpen && s[|s| - |BodyClose|..] == BodyClose
    then Some(s[|BodyOpen|..|s| - |BodyClose|])
    else None
  }

  /** Reads the two fields from the text inside the framing. */
  function DecodeFields(inner: string): Option<VerificationBody> {
    var k := IndexOf(inner, ',');
    var rest := inner[k..];
    match ParseInt(inner[..k])
    case None => None
    case Some(id) =>
      if |rest| >= |BodyMiddle| && rest[..|BodyMiddle|] == BodyMiddle && Unescaped(rest[|BodyMiddle|..])
      then Some(VerificationBody(id, rest[|BodyMiddle|..]))
      else None
  }

  /** Reads a body back from its JSON text; None for any other text. */
  function DecodeBody(s: string): Option<VerificationBody> {
    match Unframe(s)
    case None => None
    case Some(inner) => DecodeFields(inner)
  }

  lemma UnframeFrame(inner: string)
    ensures Unframe(BodyOpen + inner + BodyClose) == Some(inner)
  {
  }

  lemma FrameUnframe(s: string, inner: string)
    requires Unframe(s) == Some(inner)
    ensures BodyOpen + inner + BodyClose == s
  {
  }

  /** The first comma of the fields text is the one right after the digits. */
  lemma CommaAfterDigits(n: int, tail: string)
    requires |tail| > 0 && tail[0] == ','
    ensures IndexOf(IntToString(n) + tail, ',') == |IntToString(n)|
  {
    var digits := IntToString(n);
    var t := digits + tail;
    IntToStringChars(n);
    assert t[|digits|] == ',';
    assert forall i :: 0 <= i < |digits| ==> t[i] == digits[i];
  }

  lemma DecodeFieldsEncode(b: VerificationBody)
    requires Unescaped(b.hash)
    ensures DecodeFields(IntToString(b.taskId) + BodyMiddle + b.hash) == Some(b)
  {
    var digits := IntToString(b.taskId);
    var inner := digits + (BodyMiddle + b.hash);
    assert inner == digits + BodyMiddle + b.hash;
    CommaAfterDigits(b.taskId, BodyMiddle + b.hash);
    assert inner[..|digits|] == digits;
    assert inner[|digits|..] == BodyMiddle + b.hash;
    ParseIntToString(b.taskId);
  }

  lemma EncodeDecodeFields(inner: string, b: VerificationBody)
    requires DecodeFields(inner) == Some(b)
    ensures Unescaped(b.hash) && IntToString(b.taskId) + BodyMiddle + b.hash == inner
  {
    var k := IndexOf(inner, ',');
    var rest := inner[k..];
    assert ParseInt(inner[..k]) == Some(b.taskId);
    IntToStringOfParse(inner[..k], b.taskId);
    assert rest == BodyMiddle + b.hash;
    assert inner == inner[..k] + rest;
  }

  lemma DecodeEncodeBody(b: VerificationBody)
    requires Unescaped(b.hash)
    ensures DecodeBody(EncodeBody(b)) == Some(b)
  {
    var inner := IntToString(b.taskId) + BodyMiddle + b.hash;
    assert EncodeBody(b) == BodyOpen + inner + BodyClose;
    UnframeFrame(inner);
    DecodeFieldsEncode(b);
  }

  lemma EncodeDecodeBody(s: string, b: VerificationBody)
    requires DecodeBody(s) == Some(b)
    ensures Unescaped(b.hash) && EncodeBody(b) == s
  {
    var inner := Unframe(s).value;
    EncodeDecodeFields(inner, b);
    FrameUnframe(s, inner);
  }

  /**
   * The text sent as the request body. Read back, it holds exactly two
   * fields: task_id, the task's company id, and hash, the token unaltered.
   */
  function VerificationBodyText(task: Task, signedToken: string): (text: string)
    requires Unescaped(signedToken)
    ensures DecodeBody(text) == Some(VerificationBody(task.companyId, signedToken))
  {
    DecodeEncodeBody(VerificationBodyFor(task, signedToken));
    EncodeBody(VerificationBodyFor(task, signedToken))
  }

  lemma EncodeBodyExample()
    ensures Unescaped("abc123")
    ensures VerificationBodyText(Task(42, "", "", ""), "abc123") == "{\"task_id\":42,\"hash\":\"abc123\"}"
  {
    assert Unescaped("abc123");
    assert IntToString(42) == "42";
    var b := VerificationBodyFor(Task(42, "", "", ""), "abc123");
    var head, tail := BodyOpen + "42", BodyMiddle + "abc123" + BodyClose;
    assert EncodeBody(b) == head + tail;
    assert head == "{\"task_id\":42";
    assert tail == ",\"hash\":\"abc123\"}";
    assert head + tail == "{\"task_id\":42,\"hash\":\"abc123\"}";
    assert VerificationBodyText(Task(42, "", "", ""), "abc123") == EncodeBody(b);
  }

  // ---------------------------------------------------------------------
  // The query string: URLSearchParams.set on the endpoint's own parameters
  // ---------------------------------------------------------------------

  /** One name=value pair of a query string, in order. */
  datatype Param = Param(name: string, value: string)

  /** How many pairs carry the name. */
  function CountParam(ps: seq<Param>, name: string): nat {
    if ps == [] then 0 else (if ps[0].name == name then 1 else 0) + CountParam(ps[1..], name)
  }

  /** The value of the first pair with the name (what URLSearchParams.get returns). */
  function GetParam(ps: seq<Param>, name: string): Option<string> {
    if ps == [] then None else if ps[0].name == name then Some(ps[0].value) else GetParam(ps[1..], name)
  }

  /** The pairs with any other name, in their order. */
  function WithoutParam(ps: seq<Param>, name: string): (r: seq<Param>)
    ensures CountParam(r, name) == 0
  {
    if ps == [] then []
    else if ps[0].name == name then WithoutParam(ps[1..], name)
    else [ps[0]] + WithoutParam(ps[1..], name)
  }

  lemma {:induction false} WithoutAbsentParam(ps: seq<Param>, name: string)
    requires CountParam(ps, name) == 0
    ensures WithoutParam(ps, name) == ps
  {
    if ps != [] {
      WithoutAbsentParam(ps[1..], name);
    }
  }

  /**
   * URLSearchParams.set: the first pair with the name takes the value and
   * the later ones are removed; with no such pair, one is appended.
   */
  function SetParam(ps: seq<Param>, name: string, value: string): (r: seq<Param>)
    ensures CountParam(r, name) == 1
    ensures GetParam(r, name) == Some(value)
    ensures WithoutParam(r, name) == WithoutParam(ps, name)
  {
    if ps == [] then [Param(name, value)]
    else if ps[0].name == name then
      var rest := WithoutParam(ps[1..], name);
      WithoutAbsentParam(rest, name);
      [Param(name, value)] + rest
    else [ps[0]] + SetParam(ps[1..], name, value)
  }

  datatype HttpVerb = Get | Post

  /** What `new URL(endpoint)` gives: a URL with its query pairs, or a TypeError. */
  datatype ParsedUrl = InvalidUrl | Url(base: string, query: seq<Param>)

  /** The outbound verification request: verb, URL without query, query pairs, body. */
  datatype VerificationRequest = VerificationRequest(
    verb: HttpVerb, base: string, query: seq<Param>, body: VerificationBody)

  const AuthParam := "auth"

  function VerificationRequestFor(url: ParsedUrl, auth: string, task: Task, signedToken: string): (r: VerificationRequest)
    requires url.Url?
    ensures r.verb == Post && r.base == url.base
    ensures CountParam(r.query, AuthParam) == 1 && GetParam(r.query, AuthParam) == Some(auth)
    ensures WithoutParam(r.query, AuthParam) == WithoutParam(url.query, AuthParam)
  {
    VerificationRequest(Post, url.base, SetParam(url.query, AuthParam, auth), VerificationBodyFor(task, signedToken))
  }

  /** How the verification request ends: an HTTP status, or a rejected fetch. */
  datatype Response = Status(code: int) | TransportError

  /** The credit branch of the response handler is taken exactly on status 200. */
  predicate Credits(response: Response) {
    response.Status? && response.code == 200
  }

  /**
   * The application side the hooks act on: the verification requests sent
   * and how many times the (stubbed) credit step was reached.
   */
  class Bridge {
    var requests: seq<VerificationRequest>
    ghost var credits: nat

    constructor ()
      ensures requests == [] && credits == 0
    {
      requests := [];
      credits := 0;
    }

    /** onTaskLoad only writes to the console. */
    method OnTaskLoad(tasks: seq<Task>)
      ensures requests == old(requests) && credits == old(credits)
    {
    }

    /** onTaskReject has an empty body. */
    method OnTaskReject(task: Task)
      ensures requests == old(requests) && credits == old(credits)
    {
    }

    /**
     * onTaskReward. `url` is what the URL constructor makes of the
     * configured endpoint; when it rejects it, the constructor throws before
     * fetch is reached, outside the promise chain, and the exception
     * escapes (`escaped`). Otherwise one POST is sent, the response or the
     * transport failure is absorbed by then/catch, and the credit step is
     * reached exactly on status 200.
     */
    method OnTaskReward(url: ParsedUrl, auth: string, task: Task, signedToken: string, response: Response)
      returns (escaped: bool)
      modifies this
      ensures escaped == url.InvalidUrl?
      ensures requests == if url.Url?
        then old(requests) + [VerificationRequestFor(url, auth, task, signedToken)]
        else old(requests)
      ensures credits == old(credits) + if url.Url? && Credits(response) then 1 else 0
    {
      if url.InvalidUrl? {
        return true;
      }
      requests := requests + [VerificationRequestFor(url, auth, task, signedToken)];
      match response {
        case Status(code) =>
          if code == 200 {
            credits := credits + 1;
          }
        case TransportError =>
      }
      escaped := false;
    }
  }
}
