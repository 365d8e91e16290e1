/**
 * The calls of client_manager_test.py:13-143, in order and on the test's own
 * data, with what the contracts guarantee after each call. Each step is a
 * method whose precondition is the exact store the previous step leaves and
 * which ends by calling the next step. Phone lists are compared as
 * multisets where the database returns several rows, since their order is
 * the database's choice; `ILIKE` is given by the facts in `TestPatterns`.
 */
module Scenario {
  import opened Wrappers
  import opened Model
  import opened Tables
  import opened Search
  import opened Manager

  const Keaton := ClientRow("Michael", "Keaton", Some("m.keaton@hollywood.com"))
  const Dickinson := ClientRow("Bruce", "Dickinson", Some("b.dickinson@ironmaiden.com"))
  const Guy := ClientRow("Some", "Guy", Some("s.guy@guys.ru"))
  const Nadal := ClientRow("Rafael", "Nadal", None)
  const NadalParera := ClientRow("Rafael", "Nadal Parera", Some("r.nadal@rafaelnadal.com"))

  /** The phone rows left after the deletions of lines 31 and 59. */
  const KeptPhones := [PhoneRow(1, "+13333333333"), PhoneRow(2, "+441111111111"), PhoneRow(2, "+442222222222")]

  /** The client rows the searches of lines 94-143 run on. */
  const FinalClients := map[1 := Keaton, 2 := Dickinson, 4 := NadalParera]

  /** The phone rows the searches of lines 94-143 run on. */
  const FinalPhones := KeptPhones + [PhoneRow(4, "+341111111111"), PhoneRow(4, "+342222222222")]

  /** What `ILIKE` answers for the patterns and values of lines 94-143. */
  predicate TestPatterns(ilike: (string, string) -> bool) {
    && ilike("michael", "Michael") && !ilike("michael", "Bruce") && !ilike("michael", "Rafael")
    && ilike("%on", "Keaton") && ilike("%on", "Dickinson") && !ilike("%on", "Nadal Parera")
    && ilike("%a%", "Michael") && !ilike("%r%", "m.keaton@hollywood.com") && !ilike("%a%", "Bruce")
    && ilike("%a%", "Rafael") && ilike("%r%", "r.nadal@rafaelnadal.com")
    && ilike("%1111111111", "+441111111111") && ilike("%1111111111", "+341111111111")
    && !ilike("%1111111111", "+13333333333")
    && ilike("+13333333333", "+13333333333")
    && !ilike("+13333333333", "+441111111111") && !ilike("+13333333333", "+442222222222")
    && !ilike("+13333333333", "+341111111111") && !ilike("+13333333333", "+342222222222")
    && !ilike("Michael", "Bruce") && !ilike("Michael", "Rafael") && !ilike("Dickinson", "Keaton")
  }

  /** The store the searches run on. */
  ghost predicate Final(cm: ClientManager)
    reads cm`clients, cm`phones
  {
    && cm.clients == FinalClients
    && cm.phones == FinalPhones
    && TestPatterns(cm.ilike)
  }

  /** A list holding the same numbers as a one-element list is that list. */
  lemma SingletonList(s: seq<string>, x: string)
    requires multiset(s) == multiset{x}
    ensures s == [x]
  {
    assert |s| == |multiset(s)| == 1;
    assert s[0] in multiset(s);
  }

  /** Dropping one of two different numbers leaves the other. */
  lemma RemoveOne(a: string, b: string)
    requires a != b
    ensures multiset{a, b}[a := 0] == multiset{b}
  {
    var m := multiset{a, b}[a := 0];
    forall x ensures m[x] == multiset{b}[x] {}
  }

  /** Deleting one number from a table with one more row at the end. */
  lemma WithoutNumberSnoc(rows: seq<PhoneRow>, x: PhoneRow, id: int, number: string)
    ensures WithoutNumber(rows + [x], id, number)
         == WithoutNumber(rows, id, number) + if !(x.clientId == id && x.number == number) then [x] else []
  {
    assert (rows + [x])[..|rows|] == rows;
  }

  // ---- What each statement leaves in the tables of the test ----

  /** Client 1's only row before line 27. */
  lemma FirstNumbers()
    ensures NumbersOf([PhoneRow(1, "+12222222222")], 1) == ["+12222222222"]
  {
    assert [PhoneRow(1, "+12222222222")][..0] == [];
  }

  /** Line 31 removes the first of client 1's two numbers. */
  lemma SecondNumberKept()
    ensures multiset(NumbersOf([PhoneRow(1, "+12222222222"), PhoneRow(1, "+13333333333")], 1))["+12222222222" := 0]
         == multiset{"+13333333333"}
    ensures WithoutNumber([PhoneRow(1, "+12222222222"), PhoneRow(1, "+13333333333")], 1, "+12222222222")
         == [PhoneRow(1, "+13333333333")]
  {
    var rows := [PhoneRow(1, "+12222222222"), PhoneRow(1, "+13333333333")];
    assert rows[..1] == [PhoneRow(1, "+12222222222")] && rows[..1][..0] == [];
    assert NumbersOf(rows[..1], 1) == ["+12222222222"];
    assert NumbersOf(rows, 1) == ["+12222222222"] + ["+13333333333"];
    RemoveOne("+12222222222", "+13333333333");
    WithoutNumberSnoc([], rows[0], 1, "+12222222222");
    WithoutNumberSnoc([rows[0]], rows[1], 1, "+12222222222");
    assert rows == [rows[0]] + [rows[1]];
  }

  /** Line 35 appends client 2's two rows. */
  lemma DickinsonRows()
    ensures [PhoneRow(1, "+13333333333")] + RowsFor(2, ["+441111111111", "+442222222222"]) == KeptPhones
  {
    var numbers := ["+441111111111", "+442222222222"];
    assert numbers[..1] == ["+441111111111"] && numbers[..1][..0] == [];
  }

  /** Line 47 appends client 3's two rows. */
  lemma GuyRows()
    ensures RowsFor(3, ["+71111111111", "+72222222222"]) == [PhoneRow(3, "+71111111111"), PhoneRow(3, "+72222222222")]
  {
    var numbers := ["+71111111111", "+72222222222"];
    assert numbers[..1] == ["+71111111111"] && numbers[..1][..0] == [];
  }

  /** Line 59 takes client 3's rows and nothing else. */
  lemma GuyRowsDeleted()
    ensures Without(KeptPhones + [PhoneRow(3, "+71111111111"), PhoneRow(3, "+72222222222")], 3) == KeptPhones
  {
    var kept, first, second := KeptPhones, PhoneRow(3, "+71111111111"), PhoneRow(3, "+72222222222");
    WithoutAbsent(kept, 3);
    WithoutSnoc(kept, first, 3);
    WithoutSnoc(kept + [first], second, 3);
    assert kept + [first, second] == kept + [first] + [second];
  }

  /** Line 59 takes client 3's row and nothing else. */
  lemma GuyDeleted()
    ensures map[1 := Keaton, 2 := Dickinson, 3 := Guy] - {3} == map[1 := Keaton, 2 := Dickinson]
  {
  }

  /** After line 59 no row refers to client 3. */
  lemma GuyGone()
    ensures NumbersOf(KeptPhones, 3) == []
  {
    NumbersOfUnreferenced(KeptPhones, 3);
  }

  /** Line 79 rewrites client 4's row and leaves the phone rows as they are. */
  lemma NadalRenamed()
    ensures Without(KeptPhones, 4) + RowsFor(4, []) == KeptPhones
    ensures map[1 := Keaton, 2 := Dickinson, 4 := Nadal][4 := NadalParera] == map[1 := Keaton, 2 := Dickinson, 4 := NadalParera]
  {
    WithoutAbsent(KeptPhones, 4);
  }

  /** Line 85 gives client 4 its two rows. */
  lemma NadalNumbers()
    ensures Without(KeptPhones, 4) + RowsFor(4, ["+341111111111", "+342222222222"]) == FinalPhones
  {
    WithoutAbsent(KeptPhones, 4);
    var numbers := ["+341111111111", "+342222222222"];
    assert numbers[..1] == ["+341111111111"] && numbers[..1][..0] == [];
  }

  /** The row of the client with id 4 is overwritten by one with the same key. */
  lemma NadalUnchanged()
    ensures map[1 := Keaton, 2 := Dickinson, 4 := NadalParera][4 := NadalParera] == map[1 := Keaton, 2 := Dickinson, 4 := NadalParera]
  {
  }

  // ---- What `str(client)` shows for the clients of the test ----
  // Each string the test compares is written as two literals joined before
  // its number list (`"(1) ... <...>" + " [...]"`): the same string, cheaper to
  // prove equal to the display.

  /** `c` carries the id and the fields of `row`, whatever its phone list. */
  predicate Shows(c: Client, id: int, row: ClientRow) {
    c.id == id && c.firstName == row.firstName && c.lastName == row.lastName && c.email == row.email
  }

  /** A list holding the same two different numbers holds them in one of the two orders. */
  lemma PairList(s: seq<string>, a: string, b: string)
    requires a != b && multiset(s) == multiset{a, b}
    ensures s == [a, b] || s == [b, a]
  {
    assert |s| == |multiset(s)| == 2;
    assert s == [s[0]] + [s[1]];
    assert multiset(s) == multiset{s[0]} + multiset{s[1]};
  }

  /** Two numbers joined for display. */
  lemma JoinPair(a: string, b: string)
    ensures Join(", ", [a, b]) == a + ", " + b
  {
    assert [a, b][1..] == [b];
  }

  /** The display of a client with a truthy email and some numbers, split before its number list. */
  lemma StrSplit(c: Client, left: string, right: string)
    requires Truthy(c.email) && c.phoneNumbers != []
    requires Header(c) + " <" + c.email.value + ">" == left
    requires " [" + Join(", ", c.phoneNumbers) + "]" == right
    ensures Str(c) == left + right
  {
  }

  /** A client's display once its list is one of two orders of the pair `a`, `b`. */
  lemma StrPair(c: Client, left: string, a: string, b: string, ab: string, ba: string)
    requires Truthy(c.email) && Header(c) + " <" + c.email.value + ">" == left
    requires a != b && multiset(c.phoneNumbers) == multiset{a, b}
    requires " [" + (a + ", " + b) + "]" == ab && " [" + (b + ", " + a) + "]" == ba
    ensures Str(c) == left + ab || Str(c) == left + ba
  {
    PairList(c.phoneNumbers, a, b);
    JoinPair(a, b);
    JoinPair(b, a);
    StrSplit(c, left, " [" + Join(", ", c.phoneNumbers) + "]");
  }

  /** Lines 32, 98, 106 and 134: client 1 with its second number only. */
  lemma StrKeatonKept(c: Client)
    requires Shows(c, 1, Keaton) && multiset(c.phoneNumbers) == multiset{"+13333333333"}
    ensures Str(c) == "(1) Michael Keaton <m.keaton@hollywood.com>" + " [+13333333333]"
  {
    SingletonList(c.phoneNumbers, "+13333333333");
    KeatonLeft(c);
    assert " [" + Join(", ", c.phoneNumbers) + "]" == " [+13333333333]";
    StrSplit(c, "(1) Michael Keaton <m.keaton@hollywood.com>", " [+13333333333]");
  }

  /** Line 28: client 1 with both numbers, in the order the database returns them. */
  lemma StrKeatonBoth(c: Client)
    requires Shows(c, 1, Keaton) && multiset(c.phoneNumbers) == multiset{"+12222222222", "+13333333333"}
    ensures || Str(c) == "(1) Michael Keaton <m.keaton@hollywood.com>" + " [+12222222222, +13333333333]"
            || Str(c) == "(1) Michael Keaton <m.keaton@hollywood.com>" + " [+13333333333, +12222222222]"
  {
    KeatonLeft(c);
    KeatonPair();
    KeatonPairSwapped();
    StrPair(c, "(1) Michael Keaton <m.keaton@hollywood.com>", "+12222222222", "+13333333333",
            " [+12222222222, +13333333333]", " [+13333333333, +12222222222]");
  }

  /** Lines 44, 106 and 125: client 2 with its two numbers, in either order. */
  lemma StrDickinson(c: Client)
    requires Shows(c, 2, Dickinson) && multiset(c.phoneNumbers) == multiset{"+441111111111", "+442222222222"}
    ensures || Str(c) == "(2) Bruce Dickinson <b.dickinson@ironmaiden.com>" + " [+441111111111, +442222222222]"
            || Str(c) == "(2) Bruce Dickinson <b.dickinson@ironmaiden.com>" + " [+442222222222, +441111111111]"
  {
    DickinsonLeft(c);
    DickinsonPair();
    DickinsonPairSwapped();
    StrPair(c, "(2) Bruce Dickinson <b.dickinson@ironmaiden.com>", "+441111111111", "+442222222222",
            " [+441111111111, +442222222222]", " [+442222222222, +441111111111]");
  }

  /** Line 56: client 3 with its two numbers, in either order. */
  lemma StrGuy(c: Client)
    requires Shows(c, 3, Guy) && multiset(c.phoneNumbers) == multiset{"+71111111111", "+72222222222"}
    ensures || Str(c) == "(3) Some Guy <s.guy@guys.ru>" + " [+71111111111, +72222222222]"
            || Str(c) == "(3) Some Guy <s.guy@guys.ru>" + " [+72222222222, +71111111111]"
  {
    GuyLeft(c);
    GuyPair();
    GuyPairSwapped();
    StrPair(c, "(3) Some Guy <s.guy@guys.ru>", "+71111111111", "+72222222222",
            " [+71111111111, +72222222222]", " [+72222222222, +71111111111]");
  }

  /** Line 80: client 4 after the rename, with no numbers yet. */
  lemma StrNadalParera(c: Client)
    requires Shows(c, 4, NadalParera) && c.phoneNumbers == []
    ensures Str(c) == "(4) Rafael Nadal Parera <r.nadal@rafaelnadal.com>"
  {
    NadalLeft(c);
  }

  /** Line 86: client 4 with the two numbers appended in this order. */
  lemma StrNadalNumbers(c: Client)
    requires Shows(c, 4, NadalParera) && c.phoneNumbers == ["+341111111111", "+342222222222"]
    ensures Str(c) == "(4) Rafael Nadal Parera <r.nadal@rafaelnadal.com>" + " [+341111111111, +342222222222]"
  {
    JoinPair("+341111111111", "+342222222222");
    NadalLeft(c);
    NadalPair();
    StrSplit(c, "(4) Rafael Nadal Parera <r.nadal@rafaelnadal.com>", " [+341111111111, +342222222222]");
  }

  /** Lines 117 and 125: client 4 as loaded back, its two numbers in either order. */
  lemma StrNadalLoaded(c: Client)
    requires Shows(c, 4, NadalParera) && multiset(c.phoneNumbers) == multiset{"+341111111111", "+342222222222"}
    ensures || Str(c) == "(4) Rafael Nadal Parera <r.nadal@rafaelnadal.com>" + " [+341111111111, +342222222222]"
            || Str(c) == "(4) Rafael Nadal Parera <r.nadal@rafaelnadal.com>" + " [+342222222222, +341111111111]"
  {
    NadalLeft(c);
    NadalPair();
    NadalPairSwapped();
    StrPair(c, "(4) Rafael Nadal Parera <r.nadal@rafaelnadal.com>", "+341111111111", "+342222222222",
            " [+341111111111, +342222222222]", " [+342222222222, +341111111111]");
  }

  /** Lines 98, 106 and 134: client 1 as a search over the final store loads it. */
  lemma KeatonFound(cm: ClientManager, c: Client)
    requires Final(cm) && cm.Loaded(c, 1)
    ensures Str(c) == "(1) Michael Keaton <m.keaton@hollywood.com>" + " [+13333333333]"
  {
    FinalNumbers();
    StrKeatonKept(c);
  }

  /** Lines 106 and 125: client 2 as a search over the final store loads it. */
  lemma DickinsonFound(cm: ClientManager, c: Client)
    requires Final(cm) && cm.Loaded(c, 2)
    ensures || Str(c) == "(2) Bruce Dickinson <b.dickinson@ironmaiden.com>" + " [+441111111111, +442222222222]"
            || Str(c) == "(2) Bruce Dickinson <b.dickinson@ironmaiden.com>" + " [+442222222222, +441111111111]"
  {
    FinalNumbers();
    StrDickinson(c);
  }

  /** Lines 117 and 125: client 4 as a search over the final store loads it. */
  lemma NadalFound(cm: ClientManager, c: Client)
    requires Final(cm) && cm.Loaded(c, 4)
    ensures || Str(c) == "(4) Rafael Nadal Parera <r.nadal@rafaelnadal.com>" + " [+341111111111, +342222222222]"
            || Str(c) == "(4) Rafael Nadal Parera <r.nadal@rafaelnadal.com>" + " [+342222222222, +341111111111]"
  {
    FinalNumbers();
    StrNadalLoaded(c);
  }

  // ---- The literal pieces of those strings ----

  /** Client 1's display up to its number list. */
  lemma KeatonLeft(c: Client)
    requires Shows(c, 1, Keaton)
    ensures Truthy(c.email) && Header(c) + " <" + c.email.value + ">" == "(1) Michael Keaton <m.keaton@hollywood.com>"
  {
    var one := IntToString(1);
    assert one == "1";
    KeatonText();
    KeatonJoin();
  }

  /** Client 2's display up to its number list. */
  lemma DickinsonLeft(c: Client)
    requires Shows(c, 2, Dickinson)
    ensures Truthy(c.email) && Header(c) + " <" + c.email.value + ">" == "(2) Bruce Dickinson <b.dickinson@ironmaiden.com>"
  {
    var two := IntToString(2);
    assert two == "2";
    DickinsonText();
    DickinsonJoin();
  }

  /** Client 3's display up to its number list. */
  lemma GuyLeft(c: Client)
    requires Shows(c, 3, Guy)
    ensures Truthy(c.email) && Header(c) + " <" + c.email.value + ">" == "(3) Some Guy <s.guy@guys.ru>"
  {
    var three := IntToString(3);
    assert three == "3";
    GuyText();
    GuyJoin();
  }

  /** Client 4's display, after the rename, up to its number list. */
  lemma NadalLeft(c: Client)
    requires Shows(c, 4, NadalParera)
    ensures Truthy(c.email) && Header(c) + " <" + c.email.value + ">" == "(4) Rafael Nadal Parera <r.nadal@rafaelnadal.com>"
  {
    var four := IntToString(4);
    assert four == "4";
    NadalText();
    NadalJoin();
  }

  /** The header and email pieces of client 1's display. */
  lemma KeatonText()
    ensures "(" + "1" + ") " + "Michael" + " " + "Keaton" == "(1) Michael Keaton"
    ensures " <" + "m.keaton@hollywood.com" + ">" == " <m.keaton@hollywood.com>"
  {
  }

  /** The join of client 1's display before its number list. */
  lemma KeatonJoin()
    ensures "(1) Michael Keaton" + " <m.keaton@hollywood.com>" == "(1) Michael Keaton <m.keaton@hollywood.com>"
  {
  }

  /** The header and email pieces of client 2's display. */
  lemma DickinsonText()
    ensures "(" + "2" + ") " + "Bruce" + " " + "Dickinson" == "(2) Bruce Dickinson"
    ensures " <" + "b.dickinson@ironmaiden.com" + ">" == " <b.dickinson@ironmaiden.com>"
  {
  }

  /** The join of client 2's display before its number list. */
  lemma DickinsonJoin()
    ensures "(2) Bruce Dickinson" + " <b.dickinson@ironmaiden.com>" == "(2) Bruce Dickinson <b.dickinson@ironmaiden.com>"
  {
  }

  /** The header and email pieces of client 3's display. */
  lemma GuyText()
    ensures "(" + "3" + ") " + "Some" + " " + "Guy" == "(3) Some Guy"
    ensures " <" + "s.guy@guys.ru" + ">" == " <s.guy@guys.ru>"
  {
  }

  /** The join of client 3's display before its number list. */
  lemma GuyJoin()
    ensures "(3) Some Guy" + " <s.guy@guys.ru>" == "(3) Some Guy <s.guy@guys.ru>"
  {
  }

  /** The header and email pieces of client 4, renamed's display. */
  lemma NadalText()
    ensures "(" + "4" + ") " + "Rafael" + " " + "Nadal Parera" == "(4) Rafael Nadal Parera"
    ensures " <" + "r.nadal@rafaelnadal.com" + ">" == " <r.nadal@rafaelnadal.com>"
  {
  }

  /** The join of client 4, renamed's display before its number list. */
  lemma NadalJoin()
    ensures "(4) Rafael Nadal Parera" + " <r.nadal@rafaelnadal.com>" == "(4) Rafael Nadal Parera <r.nadal@rafaelnadal.com>"
  {
  }

  /** Client 1's two numbers displayed, in one order. */
  lemma KeatonPair()
    ensures " [" + ("+12222222222" + ", " + "+13333333333") + "]" == " [+12222222222, +13333333333]"
  {
  }

  /** Client 1's two numbers displayed, in the other order. */
  lemma KeatonPairSwapped()
    ensures " [" + ("+13333333333" + ", " + "+12222222222") + "]" == " [+13333333333, +12222222222]"
  {
  }

  /** Client 2's two numbers displayed, in one order. */
  lemma DickinsonPair()
    ensures " [" + ("+441111111111" + ", " + "+442222222222") + "]" == " [+441111111111, +442222222222]"
  {
  }

  /** Client 2's two numbers displayed, in the other order. */
  lemma DickinsonPairSwapped()
    ensures " [" + ("+442222222222" + ", " + "+441111111111") + "]" == " [+442222222222, +441111111111]"
  {
  }

  /** Client 3's two numbers displayed, in one order. */
  lemma GuyPair()
    ensures " [" + ("+71111111111" + ", " + "+72222222222") + "]" == " [+71111111111, +72222222222]"
  {
  }

  /** Client 3's two numbers displayed, in the other order. */
  lemma GuyPairSwapped()
    ensures " [" + ("+72222222222" + ", " + "+71111111111") + "]" == " [+72222222222, +71111111111]"
  {
  }

  /** Client 4's two numbers displayed, in one order. */
  lemma NadalPair()
    ensures " [" + ("+341111111111" + ", " + "+342222222222") + "]" == " [+341111111111, +342222222222]"
  {
  }

  /** Client 4's two numbers displayed, in the other order. */
  lemma NadalPairSwapped()
    ensures " [" + ("+342222222222" + ", " + "+341111111111") + "]" == " [+342222222222, +341111111111]"
  {
  }

  /** One more phone row adds its number to its own client's list only. */
  lemma NumbersOfSnoc(rows: seq<PhoneRow>, r: PhoneRow)
    ensures forall id :: NumbersOf(rows + [r], id) == NumbersOf(rows, id) + (if r.clientId == id then [r.number] else [])
  {
    assert (rows + [r])[..|rows|] == rows;
  }

  /** The numbers each client of the final store has. */
  lemma FinalNumbers()
    ensures NumbersOf(FinalPhones, 1) == ["+13333333333"]
    ensures NumbersOf(FinalPhones, 2) == ["+441111111111", "+442222222222"]
    ensures NumbersOf(FinalPhones, 4) == ["+341111111111", "+342222222222"]
  {
    var r0, r1, r2 := KeptPhones[0], KeptPhones[1], KeptPhones[2];
    var r3, r4 := PhoneRow(4, "+341111111111"), PhoneRow(4, "+342222222222");
    NumbersOfSnoc([], r0);
    assert [] + [r0] == [r0];
    NumbersOfSnoc([r0], r1);
    assert [r0] + [r1] == [r0, r1];
    NumbersOfSnoc([r0, r1], r2);
    assert [r0, r1] + [r2] == KeptPhones;
    NumbersOfSnoc(KeptPhones, r3);
    NumbersOfSnoc(KeptPhones + [r3], r4);
    assert KeptPhones + [r3] + [r4] == FinalPhones;
    assert NumbersOf(KeptPhones, 1) == ["+13333333333"];
    assert NumbersOf(KeptPhones, 2) == ["+441111111111", "+442222222222"];
    assert NumbersOf(KeptPhones, 4) == [];
  }

  // ---- The calls, in order ----

  /** Lines 16-24: the first client gets id 1 and comes back with its one number. */
  method Walkthrough(ilike: (string, string) -> bool)
    requires TestPatterns(ilike)
  {
    var cm := new ClientManager(ilike);
    var c := cm.AddClient(ContactValues("Michael", "Keaton", Some("m.keaton@hollywood.com"), Some(["+12222222222"])));
    assert c.id == 1;
    SingletonList(c.phoneNumbers, "+12222222222");
    assert c == Client(1, "Michael", "Keaton", Some("m.keaton@hollywood.com"), ["+12222222222"]);
    StrMichaelKeaton(c);
    assert cm.phones == [PhoneRow(1, "+12222222222")];
    AddNumberStep(cm);
  }

  /** Lines 26-28: one more number for client 1. */
  method AddNumberStep(cm: ClientManager)
    requires cm.Valid() && TestPatterns(cm.ilike)
    requires cm.clients == map[1 := Keaton] && cm.serial == 2 && cm.phones == [PhoneRow(1, "+12222222222")]
    modifies cm
  {
    FirstNumbers();
    var c := cm.AddPhoneNumber(1, "+13333333333");
    assert multiset(c.phoneNumbers) == multiset{"+12222222222", "+13333333333"};
    StrKeatonBoth(c);
    assert || Str(c) == "(1) Michael Keaton <m.keaton@hollywood.com>" + " [+12222222222, +13333333333]"
           || Str(c) == "(1) Michael Keaton <m.keaton@hollywood.com>" + " [+13333333333, +12222222222]";
    DeleteNumberStep(cm);
  }

  /** Lines 30-32: deleting the first number leaves the second. */
  method DeleteNumberStep(cm: ClientManager)
    requires cm.Valid() && TestPatterns(cm.ilike)
    requires cm.clients == map[1 := Keaton] && cm.serial == 2
    requires cm.phones == [PhoneRow(1, "+12222222222"), PhoneRow(1, "+13333333333")]
    modifies cm
  {
    SecondNumberKept();
    var d := cm.DeletePhoneNumber(1, "+12222222222");
    assert d.Some? && multiset(d.value.phoneNumbers) == multiset{"+13333333333"};
    StrKeatonKept(d.value);
    assert Str(d.value) == "(1) Michael Keaton <m.keaton@hollywood.com>" + " [+13333333333]";
    AddDickinsonStep(cm);
  }

  /** Lines 34-44: a second client with two numbers gets id 2. */
  method AddDickinsonStep(cm: ClientManager)
    requires cm.Valid() && TestPatterns(cm.ilike)
    requires cm.clients == map[1 := Keaton] && cm.serial == 2 && cm.phones == [PhoneRow(1, "+13333333333")]
    modifies cm
  {
    var numbers := ["+441111111111", "+442222222222"];
    DickinsonRows();
    var b := cm.AddClient(ContactValues("Bruce", "Dickinson", Some("b.dickinson@ironmaiden.com"), Some(numbers)));
    assert b.id == 2 && multiset(b.phoneNumbers) == multiset(numbers);
    StrDickinson(b);
    assert || Str(b) == "(2) Bruce Dickinson <b.dickinson@ironmaiden.com>" + " [+441111111111, +442222222222]"
           || Str(b) == "(2) Bruce Dickinson <b.dickinson@ironmaiden.com>" + " [+442222222222, +441111111111]";
    AddGuyStep(cm);
  }

  /** Lines 46-56: a third client with two numbers gets id 3. */
  method AddGuyStep(cm: ClientManager)
    requires cm.Valid() && TestPatterns(cm.ilike)
    requires cm.clients == map[1 := Keaton, 2 := Dickinson] && cm.serial == 3 && cm.phones == KeptPhones
    modifies cm
  {
    var numbers := ["+71111111111", "+72222222222"];
    GuyRows();
    var g := cm.AddClient(ContactValues("Some", "Guy", Some("s.guy@guys.ru"), Some(numbers)));
    assert g.id == 3 && multiset(g.phoneNumbers) == multiset(numbers);
    StrGuy(g);
    assert || Str(g) == "(3) Some Guy <s.guy@guys.ru>" + " [+71111111111, +72222222222]"
           || Str(g) == "(3) Some Guy <s.guy@guys.ru>" + " [+72222222222, +71111111111]";
    DeleteGuyStep(cm);
  }

  /** Lines 58-59: deleting client 3 takes its rows with it. */
  method DeleteGuyStep(cm: ClientManager)
    requires cm.Valid() && TestPatterns(cm.ilike)
    requires cm.clients == map[1 := Keaton, 2 := Dickinson, 3 := Guy] && cm.serial == 4
    requires cm.phones == KeptPhones + [PhoneRow(3, "+71111111111"), PhoneRow(3, "+72222222222")]
    modifies cm
  {
    GuyRowsDeleted();
    GuyDeleted();
    cm.DeleteClient(3);
    LoadGuyStep(cm);
  }

  /** Lines 61-62: the deleted client cannot be loaded. */
  method LoadGuyStep(cm: ClientManager)
    requires cm.Valid() && TestPatterns(cm.ilike)
    requires cm.clients == map[1 := Keaton, 2 := Dickinson] && cm.serial == 4 && cm.phones == KeptPhones
    modifies cm
  {
    var gone := cm.LoadClient(3);
    assert gone.None?;
    GuyNumbersStep(cm);
  }

  /** Lines 64-67: no phone row of client 3 survives the cascade. */
  method GuyNumbersStep(cm: ClientManager)
    requires cm.Valid() && TestPatterns(cm.ilike)
    requires cm.clients == map[1 := Keaton, 2 := Dickinson] && cm.serial == 4 && cm.phones == KeptPhones
    modifies cm
  {
    GuyGone();
    var left := cm.LoadPhoneNumbers(3);
    assert left == [];
    AddNadalStep(cm);
  }

  /** Lines 69-74: a client with just names gets id 4 and displays bare. */
  method AddNadalStep(cm: ClientManager)
    requires cm.Valid() && TestPatterns(cm.ilike)
    requires cm.clients == map[1 := Keaton, 2 := Dickinson] && cm.serial == 4 && cm.phones == KeptPhones
    modifies cm
  {
    var n := cm.AddClient(ContactValues("Rafael", "Nadal", None, None));
    assert n == Client(4, "Rafael", "Nadal", None, []);
    StrRafaelNadal();
    assert cm.phones == KeptPhones;
    RenameStep(cm, n);
  }

  /** Lines 76-80: a new last name and an email for client 4. */
  method RenameStep(cm: ClientManager, n: Client)
    requires cm.Valid() && TestPatterns(cm.ilike)
    requires cm.clients == map[1 := Keaton, 2 := Dickinson, 4 := Nadal] && cm.phones == KeptPhones
    requires n == Client(4, "Rafael", "Nadal", None, [])
    modifies cm
  {
    var m := n.(lastName := "Nadal Parera", email := Some("r.nadal@rafaelnadal.com"));
    NadalRenamed();
    var u := cm.UpdateClient(m);
    assert u.Success? && u.value.lastName == "Nadal Parera" && u.value.phoneNumbers == [];
    StrNadalParera(m);
    assert Str(m) == "(4) Rafael Nadal Parera <r.nadal@rafaelnadal.com>";
    SetNumbersStep(cm, m);
  }

  /** Lines 82-86: setting the numbers of client 4. */
  method SetNumbersStep(cm: ClientManager, m: Client)
    requires cm.Valid() && TestPatterns(cm.ilike)
    requires cm.clients == map[1 := Keaton, 2 := Dickinson, 4 := NadalParera] && cm.phones == KeptPhones
    requires m == Client(4, "Rafael", "Nadal Parera", Some("r.nadal@rafaelnadal.com"), [])
    modifies cm
  {
    var numbers := ["+341111111111", "+342222222222"];
    NadalNumbers();
    NadalUnchanged();
    var u := cm.UpdateClient(m.(phoneNumbers := numbers));
    assert u.Success? && multiset(u.value.phoneNumbers) == multiset(numbers);
    StrNadalNumbers(m.(phoneNumbers := numbers));
    assert Str(m.(phoneNumbers := numbers)) == "(4) Rafael Nadal Parera <r.nadal@rafaelnadal.com>" + " [+341111111111, +342222222222]";
    MissingStep(cm, m.(phoneNumbers := numbers));
  }

  /** Lines 88-92: updating id 999 fails with that id and its text. */
  method MissingStep(cm: ClientManager, m: Client)
    requires cm.Valid() && TestPatterns(cm.ilike)
    requires cm.clients == map[1 := Keaton, 2 := Dickinson, 4 := NadalParera] && cm.phones == FinalPhones
    requires RowFits(ClientRow(m.firstName, m.lastName, m.email))
    modifies cm
  {
    var missing := cm.UpdateClient(m.(id := 999));
    assert missing == Failure(ClientNotExists(999));
    Message999();
    Searches(cm);
  }

  /** Lines 94-143, each search on the store the updates left. */
  method Searches(cm: ClientManager)
    requires Final(cm)
    modifies cm`selects
  {
    SearchFirstName(cm);
    SearchLastNameSuffix(cm);
    SearchLetters(cm);
    SearchLocalNumber(cm);
    SearchFullNumber(cm);
    SearchNobody(cm);
  }

  /** Lines 94-100: `michael` finds Michael Keaton only. */
  method SearchFirstName(cm: ClientManager)
    requires Final(cm)
    modifies cm`selects
  {
    var found := cm.SearchClients([(FirstName, "michael")]);
    FirstNameHits(cm.ilike);
    assert found.Some? && found.value.Keys == {1};
    KeatonFound(cm, found.value[1]);
    assert Str(found.value[1]) == "(1) Michael Keaton <m.keaton@hollywood.com>" + " [+13333333333]";
  }

  /** The clients of the final store whose first name matches `michael`. */
  lemma FirstNameHits(ilike: (string, string) -> bool)
    requires TestPatterns(ilike)
    ensures forall id :: Matches(ilike, [(FirstName, "michael")], FinalClients, FinalPhones, id) <==> id == 1
  {
    var values := [(FirstName, "michael")];
    assert FieldsHold(ilike, values, FinalClients[1], None);
    assert !Like(ilike, values[0].1, Column(values[0].0, FinalClients[2], None));
    assert !Like(ilike, values[0].1, Column(values[0].0, FinalClients[4], None));
  }

  /** Lines 102-109: `%on` finds Keaton and Dickinson. */
  method SearchLastNameSuffix(cm: ClientManager)
    requires Final(cm)
    modifies cm`selects
  {
    var found := cm.SearchClients([(LastName, "%on")]);
    LastNameHits(cm.ilike);
    assert found.Some? && found.value.Keys == {1, 2};
    KeatonFound(cm, found.value[1]);
    DickinsonFound(cm, found.value[2]);
    assert Str(found.value[1]) == "(1) Michael Keaton <m.keaton@hollywood.com>" + " [+13333333333]";
    assert || Str(found.value[2]) == "(2) Bruce Dickinson <b.dickinson@ironmaiden.com>" + " [+441111111111, +442222222222]"
           || Str(found.value[2]) == "(2) Bruce Dickinson <b.dickinson@ironmaiden.com>" + " [+442222222222, +441111111111]";
  }

  /** The clients of the final store whose last name matches `%on`. */
  lemma LastNameHits(ilike: (string, string) -> bool)
    requires TestPatterns(ilike)
    ensures forall id :: Matches(ilike, [(LastName, "%on")], FinalClients, FinalPhones, id) <==> id == 1 || id == 2
  {
    var values := [(LastName, "%on")];
    assert FieldsHold(ilike, values, FinalClients[1], None);
    assert FieldsHold(ilike, values, FinalClients[2], None);
    assert !Like(ilike, values[0].1, Column(values[0].0, FinalClients[4], None));
  }

  /** Lines 111-119: an `a` in the first name and an `r` in the email find Rafael only. */
  method SearchLetters(cm: ClientManager)
    requires Final(cm)
    modifies cm`selects
  {
    var found := cm.SearchClients([(FirstName, "%a%"), (Email, "%r%")]);
    LettersHits(cm.ilike);
    assert found.Some? && found.value.Keys == {4};
    NadalFound(cm, found.value[4]);
    assert || Str(found.value[4]) == "(4) Rafael Nadal Parera <r.nadal@rafaelnadal.com>" + " [+341111111111, +342222222222]"
           || Str(found.value[4]) == "(4) Rafael Nadal Parera <r.nadal@rafaelnadal.com>" + " [+342222222222, +341111111111]";
  }

  /** The clients of the final store whose first name matches `%a%` and whose email matches `%r%`. */
  lemma LettersHits(ilike: (string, string) -> bool)
    requires TestPatterns(ilike)
    ensures forall id :: Matches(ilike, [(FirstName, "%a%"), (Email, "%r%")], FinalClients, FinalPhones, id) <==> id == 4
  {
    var values := [(FirstName, "%a%"), (Email, "%r%")];
    assert !Like(ilike, values[1].1, Column(values[1].0, FinalClients[1], None));
    assert !Like(ilike, values[0].1, Column(values[0].0, FinalClients[2], None));
    assert FieldsHold(ilike, values, FinalClients[4], None);
  }

  /** Lines 121-128: `%1111111111` goes through the join and finds Dickinson and Rafael. */
  method SearchLocalNumber(cm: ClientManager)
    requires Final(cm)
    modifies cm`selects
  {
    var found := cm.SearchClients([(PhoneNumber, "%1111111111")]);
    LocalNumberHits(cm.ilike);
    assert found.Some? && found.value.Keys == {2, 4};
    DickinsonFound(cm, found.value[2]);
    NadalFound(cm, found.value[4]);
    assert || Str(found.value[2]) == "(2) Bruce Dickinson <b.dickinson@ironmaiden.com>" + " [+441111111111, +442222222222]"
           || Str(found.value[2]) == "(2) Bruce Dickinson <b.dickinson@ironmaiden.com>" + " [+442222222222, +441111111111]";
    assert || Str(found.value[4]) == "(4) Rafael Nadal Parera <r.nadal@rafaelnadal.com>" + " [+341111111111, +342222222222]"
           || Str(found.value[4]) == "(4) Rafael Nadal Parera <r.nadal@rafaelnadal.com>" + " [+342222222222, +341111111111]";
  }

  /** The clients of the final store that have a number matching `%1111111111`. */
  lemma LocalNumberHits(ilike: (string, string) -> bool)
    requires TestPatterns(ilike)
    ensures forall id :: Matches(ilike, [(PhoneNumber, "%1111111111")], FinalClients, FinalPhones, id) <==> id == 2 || id == 4
  {
    var values := [(PhoneNumber, "%1111111111")];
    assert values[0].0 == PhoneNumber;
    assert FieldsHold(ilike, values, FinalClients[2], Some(FinalPhones[1].number));
    assert FieldsHold(ilike, values, FinalClients[4], Some(FinalPhones[3].number));
    forall p | p in FinalPhones && p.clientId == 1
      ensures !FieldsHold(ilike, values, FinalClients[1], Some(p.number))
    {
      assert p == FinalPhones[0];
      assert !Like(ilike, values[0].1, Column(values[0].0, FinalClients[1], Some(p.number)));
    }
  }

  /** Lines 130-136: the full number `+13333333333` finds Michael Keaton only. */
  method SearchFullNumber(cm: ClientManager)
    requires Final(cm)
    modifies cm`selects
  {
    var found := cm.SearchClients([(PhoneNumber, "+13333333333")]);
    FullNumberHits(cm.ilike);
    assert found.Some? && found.value.Keys == {1};
    KeatonFound(cm, found.value[1]);
    assert Str(found.value[1]) == "(1) Michael Keaton <m.keaton@hollywood.com>" + " [+13333333333]";
  }

  /** The clients of the final store that have the number `+13333333333`. */
  lemma FullNumberHits(ilike: (string, string) -> bool)
    requires TestPatterns(ilike)
    ensures forall id :: Matches(ilike, [(PhoneNumber, "+13333333333")], FinalClients, FinalPhones, id) <==> id == 1
  {
    var values := [(PhoneNumber, "+13333333333")];
    assert values[0].0 == PhoneNumber;
    assert FieldsHold(ilike, values, FinalClients[1], Some(FinalPhones[0].number));
    FullNumberMisses(ilike, 2);
    FullNumberMisses(ilike, 4);
  }

  /** Neither Dickinson's nor Rafael's numbers match `+13333333333`. */
  lemma FullNumberMisses(ilike: (string, string) -> bool, id: int)
    requires TestPatterns(ilike) && (id == 2 || id == 4)
    ensures forall p :: p in FinalPhones && p.clientId == id ==> !FieldsHold(ilike, [(PhoneNumber, "+13333333333")], FinalClients[id], Some(p.number))
  {
    var values := [(PhoneNumber, "+13333333333")];
    forall p | p in FinalPhones && p.clientId == id
      ensures !FieldsHold(ilike, values, FinalClients[id], Some(p.number))
    {
      assert p == FinalPhones[1] || p == FinalPhones[2] || p == FinalPhones[3] || p == FinalPhones[4];
      assert !Like(ilike, values[0].1, Column(values[0].0, FinalClients[id], Some(p.number)));
    }
  }

  /**
   * Lines 138-143: `Michael` and `Dickinson` match nobody, and the search
   * returns an empty dictionary, not the `None` line 143 expects.
   */
  method SearchNobody(cm: ClientManager)
    requires Final(cm)
    modifies cm`selects
  {
    var found := cm.SearchClients([(FirstName, "Michael"), (LastName, "Dickinson")]);
    NobodyHits(cm.ilike);
    assert found == Some(map[]);
  }

  /** No client of the final store is both a `Michael` and a `Dickinson`. */
  lemma NobodyHits(ilike: (string, string) -> bool)
    requires TestPatterns(ilike)
    ensures forall id :: !Matches(ilike, [(FirstName, "Michael"), (LastName, "Dickinson")], FinalClients, FinalPhones, id)
  {
    var values := [(FirstName, "Michael"), (LastName, "Dickinson")];
    assert !Like(ilike, values[1].1, Column(values[1].0, FinalClients[1], None));
    assert !Like(ilike, values[0].1, Column(values[0].0, FinalClients[2], None));
    assert !Like(ilike, values[0].1, Column(values[0].0, FinalClients[4], None));
  }
}
