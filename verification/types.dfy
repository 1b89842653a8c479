/** Value types shared by the hook and the transport: the chat message record
    and the request record, plus the decimal rendering the code uses when it
    interpolates a number into a string. */
module ChatTypes {

  datatype Option<+T> = None | Some(value: T)

  /** Who wrote a message. */
  datatype Sender = User | Bot

  /** One chat bubble. `isLoading` is optional in the source: the user message
      never sets it, the bot placeholder sets it to false. */
  datatype Message = Message(
    id: string,
    content: string,
    sender: Sender,
    timestamp: nat,
    isLoading: Option<bool>)

  /** `!msg.isLoading` is false only for a message whose flag is present and true. */
  predicate Loading(m: Message)
  {
    m.isLoading == Some(true)
  }

  /** The request record handed to the start call; the hook fills only
      `message` and `chatId`. */
  datatype ApiRequest = ApiRequest(
    message: string,
    userId: Option<string>,
    chatId: Option<string>,
    runId: Option<string>)

  /** JavaScript truthiness of an optional string: present and non-empty. */
  predicate Truthy(o: Option<string>)
  {
    o.Some? && o.value != ""
  }

  function Digit(d: nat): (c: char)
    requires d < 10
    ensures '0' <= c <= '9'
  {
    ('0' as int + d) as char
  }

  /** The value a decimal digit stands for. */
  function DigitValue(c: char): (d: nat)
    requires '0' <= c <= '9'
    ensures d < 10
  {
    c as int - '0' as int
  }

  predicate AllDigits(s: string)
  {
    forall k :: 0 <= k < |s| ==> '0' <= s[k] <= '9'
  }

  /** The number a string of decimal digits denotes, most significant first. */
  function DigitsValue(s: string): nat
    requires AllDigits(s)
  {
    if s == [] then 0 else DigitsValue(s[..|s| - 1]) * 10 + DigitValue(s[|s| - 1])
  }

  /** Decimal rendering of a natural number, as template-string interpolation
      prints it: digits only, and no leading zero. */
  function NatToString(n: nat): (s: string)
    ensures |s| > 0 && AllDigits(s)
    ensures |s| > 1 ==> s[0] != '0'
    decreases n
  {
    if n < 10 then [Digit(n)] else NatToString(n / 10) + [Digit(n % 10)]
  }

  /** Reading the rendering back gives the number: the rendering is exact. */
  lemma {:induction false} NatToStringValue(n: nat)
    ensures DigitsValue(NatToString(n)) == n
    decreases n
  {
    var s := NatToString(n);
    if n >= 10 {
      NatToStringValue(n / 10);
      assert s[..|s| - 1] == NatToString(n / 10);
    }
  }

  /** Different numbers render differently. */
  lemma NatToStringInjective(m: nat, n: nat)
    requires NatToString(m) == NatToString(n)
    ensures m == n
  {
    NatToStringValue(m);
    NatToStringValue(n);
  }

  /** Concatenation regroups freely; stated once so that large proofs can call
      it instead of searching for it. */
  lemma AppendAssoc<T>(s: seq<T>, a: seq<T>, b: seq<T>)
    ensures s + a + b == s + (a + b)
  {
  }
}
