/**
 * The client entity (client_manager/model.py), the dictionary shapes it is
 * built from (client_manager/types.py) and the one error the repository
 * raises (client_manager/errors.py).
 */
module Model {
  import opened Wrappers

  /** `ContactValues`: first and last name are required keys, email and phone numbers optional. */
  datatype ContactValues = ContactValues(
    firstName: string,
    lastName: string,
    email: Option<string>,
    phoneNumbers: Option<seq<string>>)

  /** `ClientValues`: a contact with its required `client_id` key. */
  datatype ClientValues = ClientValues(
    clientId: int,
    firstName: string,
    lastName: string,
    email: Option<string>,
    phoneNumbers: Option<seq<string>>)

  /** The `Client` model: a plain holder of the five fields. */
  datatype Client = Client(
    id: int,
    firstName: string,
    lastName: string,
    email: Option<string>,
    phoneNumbers: seq<string>)

  /** `ClientNotExistsError`, carrying the id that was not found. */
  datatype ClientError = ClientNotExists(id: int)

  /** The text the error is raised with. */
  function Message(e: ClientError): (m: string)
    ensures |m| >= 30 && m[..15] == "Client with ID=" && m[|m| - 15..] == " does not exist"
    ensures IsNumeral(m[15..|m| - 15]) && ParseInt(m[15..|m| - 15]) == e.id
  {
    match e
    case ClientNotExists(id) =>
      IntToStringDecimal(id);
      "Client with ID=" + IntToString(id) + " does not exist"
  }

  /** `Client.__init__`: every field is read from its key; absent keys give defaults. */
  function NewClient(props: ClientValues): (c: Client)
    ensures c.id == props.clientId
    ensures c.firstName == props.firstName && c.lastName == props.lastName
    ensures c.email == props.email
    ensures props.phoneNumbers.None? ==> c.phoneNumbers == []
    ensures props.phoneNumbers.Some? ==> c.phoneNumbers == props.phoneNumbers.value
  {
    Client(props.clientId, props.firstName, props.lastName, props.email,
           match props.phoneNumbers case Some(ns) => ns case None => [])
  }

  /** Python truthiness of an optional string: neither `None` nor empty. */
  predicate Truthy(s: Option<string>) {
    s.Some? && s.value != ""
  }

  /** The character of a decimal digit. */
  function Digit(d: nat): (ch: char)
    requires d < 10
  {
    ('0' as int + d) as char
  }

  /** Decimal digits of a natural number, as `str` prints it. */
  function NatToString(n: nat): (s: string)
    decreases n
  {
    if n < 10 then [Digit(n)] else NatToString(n / 10) + [Digit(n % 10)]
  }

  /** `str(i)` for a Python `int`. */
  function IntToString(i: int): (s: string) {
    if i < 0 then "-" + NatToString(-i) else NatToString(i)
  }

  /** Every character is a decimal digit. */
  predicate IsDigits(s: string) {
    forall i :: 0 <= i < |s| ==> '0' <= s[i] <= '9'
  }

  /** The number a string of decimal digits denotes. */
  function DigitsValue(s: string): (n: nat)
    requires IsDigits(s)
    decreases |s|
  {
    if s == [] then 0 else DigitsValue(s[..|s| - 1]) * 10 + (s[|s| - 1] as int - '0' as int)
  }

  /** A decimal numeral: digits, or a minus sign followed by digits. */
  predicate IsNumeral(s: string) {
    && s != []
    && if s[0] == '-' then |s| > 1 && IsDigits(s[1..]) else IsDigits(s)
  }

  /** The integer a numeral denotes. */
  function ParseInt(s: string): (i: int)
    requires IsNumeral(s)
  {
    if s[0] == '-' then -(DigitsValue(s[1..]) as int) else DigitsValue(s)
  }

  /** `str(n)` prints digits only, has no leading zero unless it is `0`, and reads back as `n`. */
  lemma {:induction false} NatToStringDecimal(n: nat)
    ensures IsDigits(NatToString(n)) && NatToString(n) != []
    ensures NatToString(n)[0] == '0' ==> NatToString(n) == "0"
    ensures DigitsValue(NatToString(n)) == n
    decreases n
  {
    var s := NatToString(n);
    if n >= 10 {
      NatToStringDecimal(n / 10);
      var init := NatToString(n / 10);
      assert s[..|s| - 1] == init;
      assert s[0] == init[0];
    }
  }

  /** `str(i)` is a numeral that reads back as `i`. */
  lemma IntToStringDecimal(i: int)
    ensures IsNumeral(IntToString(i)) && ParseInt(IntToString(i)) == i
  {
    var s := IntToString(i);
    if i < 0 {
      NatToStringDecimal(-i);
      assert s[1..] == NatToString(-i);
    } else {
      NatToStringDecimal(i);
    }
  }

  /** Different ids print differently. */
  lemma IntToStringInjective(a: int, b: int)
    requires IntToString(a) == IntToString(b)
    ensures a == b
  {
    IntToStringDecimal(a);
    IntToStringDecimal(b);
  }

  /** The error text carries the id between its fixed prefix and suffix. */
  lemma MessageCarriesId(e: ClientError)
    ensures |Message(e)| >= 30
    ensures Message(e)[..15] == "Client with ID=" && Message(e)[|Message(e)| - 15..] == " does not exist"
    ensures Message(e)[15..|Message(e)| - 15] == IntToString(e.id)
  {
  }

  /** Two errors with the same text are about the same id. */
  lemma MessageNamesId(e1: ClientError, e2: ClientError)
    requires Message(e1) == Message(e2)
    ensures e1 == e2
  {
    MessageCarriesId(e1);
    MessageCarriesId(e2);
    IntToStringInjective(e1.id, e2.id);
  }

  /** The text of the error for the missing client 999. */
  lemma Message999()
    ensures Message(ClientNotExists(999)) == "Client with ID=999 does not exist"
  {
    var id := IntToString(999);
    assert id == "999";
    Message999Text();
  }

  /** The literal pieces of the text for client 999. */
  lemma Message999Text()
    ensures "Client with ID=" + "999" + " does not exist" == "Client with ID=999 does not exist"
  {
  }

  /** `sep.join(parts)`. */
  function Join(sep: string, parts: seq<string>): (s: string)
    decreases |parts|
  {
    if |parts| == 0 then ""
    else if |parts| == 1 then parts[0]
    else parts[0] + sep + Join(sep, parts[1..])
  }

  /** The parts `__str__` collects before joining them with single spaces. */
  function StrParts(c: Client): (parts: seq<string>) {
    ["(" + IntToString(c.id) + ")", c.firstName, c.lastName]
    + (if Truthy(c.email) then ["<" + c.email.value + ">"] else [])
    + (if |c.phoneNumbers| > 0 then ["[" + Join(", ", c.phoneNumbers) + "]"] else [])
  }

  /**
   * `Client.__str__`: the header `(id) first last`, then ` <email>` exactly
   * when the email is truthy, then ` [n1, n2, ...]` exactly when there is a
   * phone number, with the email part always before the phone part.
   */
  function Str(c: Client): (s: string)
    ensures s == Header(c)
                 + (if Truthy(c.email) then " <" + c.email.value + ">" else "")
                 + (if |c.phoneNumbers| > 0 then " [" + Join(", ", c.phoneNumbers) + "]" else "")
  {
    PartsLayout(c);
    Join(" ", StrParts(c))
  }

  /** The part every display string begins with: `(id) first_name last_name`. */
  function Header(c: Client): (h: string) {
    "(" + IntToString(c.id) + ") " + c.firstName + " " + c.lastName
  }

  /** Appending a part to a non-empty list adds one separator and the part at the end. */
  lemma {:induction false} JoinSnoc(sep: string, parts: seq<string>, x: string)
    requires parts != []
    ensures Join(sep, parts + [x]) == Join(sep, parts) + sep + x
    decreases |parts|
  {
    if |parts| == 1 {
      assert (parts + [x])[1..] == [x];
    } else {
      assert (parts + [x])[1..] == parts[1..] + [x];
      JoinSnoc(sep, parts[1..], x);
    }
  }

  /** The three leading parts join to the header. */
  lemma JoinHeader(c: Client)
    ensures Join(" ", ["(" + IntToString(c.id) + ")", c.firstName, c.lastName]) == Header(c)
  {
    var parts := ["(" + IntToString(c.id) + ")", c.firstName, c.lastName];
    assert parts[1..] == [c.firstName, c.lastName];
    assert parts[1..][1..] == [c.lastName];
    assert Join(" ", parts[1..]) == c.firstName + " " + c.lastName;
    assert Join(" ", parts) == parts[0] + " " + (c.firstName + " " + c.lastName);
  }

  /** Appending an optional part: nothing when it is absent, a space and the part otherwise. */
  lemma JoinOptional(parts: seq<string>, opt: seq<string>)
    requires parts != [] && |opt| <= 1
    ensures Join(" ", parts + opt) == Join(" ", parts) + (if opt == [] then "" else " " + opt[0])
  {
    if opt == [] {
      assert parts + opt == parts;
    } else {
      assert opt == [opt[0]];
      JoinSnoc(" ", parts, opt[0]);
    }
  }

  /** The parts join to the header followed by the optional email and phone parts. */
  lemma PartsLayout(c: Client)
    ensures Join(" ", StrParts(c)) == Header(c)
                      + (if Truthy(c.email) then " <" + c.email.value + ">" else "")
                      + (if |c.phoneNumbers| > 0 then " [" + Join(", ", c.phoneNumbers) + "]" else "")
  {
    var base := ["(" + IntToString(c.id) + ")", c.firstName, c.lastName];
    var e := if Truthy(c.email) then ["<" + c.email.value + ">"] else [];
    var p := if |c.phoneNumbers| > 0 then ["[" + Join(", ", c.phoneNumbers) + "]"] else [];
    JoinHeader(c);
    JoinOptional(base, e);
    JoinOptional(base + e, p);
    var es := if Truthy(c.email) then " <" + c.email.value + ">" else "";
    var ps := if |c.phoneNumbers| > 0 then " [" + Join(", ", c.phoneNumbers) + "]" else "";
    assert (if e == [] then "" else " " + e[0]) == es;
    assert (if p == [] then "" else " " + p[0]) == ps;
  }

  /** Every display string begins with the header. */
  lemma StrStartsWithHeader(c: Client)
    ensures Header(c) <= Str(c)
  {
  }

  /** The email part is present exactly when the email is truthy. */
  lemma StrShowsEmail(c: Client)
    ensures Truthy(c.email) <==> Header(c) + " <" <= Str(c)
  {
    var h := Header(c);
    if !Truthy(c.email) {
      if |c.phoneNumbers| > 0 {
        assert Str(c)[|h| + 1] == '[';
      } else {
        assert Str(c) == h;
      }
    }
  }

  /** A client with neither email nor phone numbers displays as its header alone. */
  lemma StrBare(c: Client)
    requires !Truthy(c.email) && c.phoneNumbers == []
    ensures Str(c) == Header(c)
  {
  }

  /** `str(client)` after adding Rafael Nadal with just his names. */
  lemma StrRafaelNadal()
    ensures Str(Client(4, "Rafael", "Nadal", None, [])) == "(4) Rafael Nadal"
  {
    StrBare(Client(4, "Rafael", "Nadal", None, []));
  }

  /** `str(client)` after adding Michael Keaton with one phone number. */
  lemma StrMichaelKeaton(c: Client)
    requires c == Client(1, "Michael", "Keaton", Some("m.keaton@hollywood.com"), ["+12222222222"])
    ensures Str(c) == "(1) Michael Keaton <m.keaton@hollywood.com> [+12222222222]"
  {
    var h, e, n := "(1) Michael Keaton", "m.keaton@hollywood.com", "+12222222222";
    KeatonHeader();
    assert Truthy(c.email) && c.email.value == e;
    assert Join(", ", c.phoneNumbers) == n;
    assert Str(c) == h + " <" + e + ">" + " [" + n + "]";
    KeatonText();
  }

  /** The header of client 1. */
  lemma KeatonHeader()
    ensures Header(Client(1, "Michael", "Keaton", Some("m.keaton@hollywood.com"), ["+12222222222"])) == "(1) Michael Keaton"
  {
    var one := IntToString(1);
    assert one == "1";
    assert "(" + one + ") " + "Michael" + " " + "Keaton" == "(1) Michael Keaton";
  }

  /** The concatenation of the display parts of client 1 as one literal. */
  lemma KeatonText()
    ensures "(1) Michael Keaton" + " <" + "m.keaton@hollywood.com" + ">" + " [" + "+12222222222" + "]"
         == "(1) Michael Keaton <m.keaton@hollywood.com> [+12222222222]"
  {
  }
}
