/**
 * The two tables of the store (client_manager/client_manager.py:33-51) as
 * values: the `client` table keyed by `client_id`, and the keyless
 * `client_phone_number` table as a sequence of rows. The functions here are
 * the statements the repository issues against the phone table, and the
 * lemmas say what each leaves behind for every client.
 */
module Tables {
  import opened Wrappers
  import opened Model

  /** A row of table `client`, without its key. */
  datatype ClientRow = ClientRow(firstName: string, lastName: string, email: Option<string>)

  /** A row of table `client_phone_number`. */
  datatype PhoneRow = PhoneRow(clientId: int, number: string)

  /** Width of the `VARCHAR` name and email columns. */
  const NameWidth: nat := 100

  /** Width of the `VARCHAR` phone-number column. */
  const PhoneWidth: nat := 20

  /** The column limits of table `client`. */
  predicate RowFits(row: ClientRow) {
    && |row.firstName| <= NameWidth
    && |row.lastName| <= NameWidth
    && (row.email.Some? ==> |row.email.value| <= NameWidth)
  }

  /** The column limit of table `client_phone_number`. */
  predicate NumbersFit(numbers: seq<string>) {
    forall n :: n in numbers ==> |n| <= PhoneWidth
  }

  /** The dictionary a `SELECT * FROM client` row arrives as: no `phone_numbers` key. */
  function RowValues(id: int, row: ClientRow): (values: ClientValues) {
    ClientValues(id, row.firstName, row.lastName, row.email, None)
  }

  /** The rows of `rows` that `keep` accepts, in table order. */
  function Filter(rows: seq<PhoneRow>, keep: PhoneRow -> bool): (r: seq<PhoneRow>)
    ensures forall x {:trigger x in r} :: x in r <==> x in rows && keep(x)
    decreases |rows|
  {
    if rows == [] then []
    else
      var last := rows[|rows| - 1];
      Filter(rows[..|rows| - 1], keep) + (if keep(last) then [last] else [])
  }

  /** `WHERE client_id = ANY(ids)`. */
  function Where(rows: seq<PhoneRow>, ids: seq<int>): (r: seq<PhoneRow>)
    ensures forall x {:trigger x in r} :: x in r <==> x in rows && x.clientId in ids
  {
    Filter(rows, (r: PhoneRow) => r.clientId in ids)
  }

  /** What `DELETE ... WHERE client_id = id` (and the cascade from `client`) leaves. */
  function Without(rows: seq<PhoneRow>, id: int): (r: seq<PhoneRow>)
    ensures forall x {:trigger x in r} :: x in r <==> x in rows && x.clientId != id
  {
    Filter(rows, (r: PhoneRow) => r.clientId != id)
  }

  /** What `DELETE ... WHERE client_id = id AND phone_number = number` leaves. */
  function WithoutNumber(rows: seq<PhoneRow>, id: int, number: string): (r: seq<PhoneRow>)
    ensures forall x {:trigger x in r} :: x in r <==> x in rows && x != PhoneRow(id, number)
  {
    Filter(rows, (r: PhoneRow) => !(r.clientId == id && r.number == number))
  }

  /** The rows one `INSERT` per number, in list order, appends for client `id`. */
  function RowsFor(id: int, numbers: seq<string>): (r: seq<PhoneRow>)
    ensures |r| == |numbers|
    decreases |numbers|
  {
    if numbers == [] then []
    else RowsFor(id, numbers[..|numbers| - 1]) + [PhoneRow(id, numbers[|numbers| - 1])]
  }

  /** The numbers of the rows that belong to client `id`, in table order. */
  function NumbersOf(rows: seq<PhoneRow>, id: int): (numbers: seq<string>)
    ensures |numbers| <= |rows|
    ensures forall n {:trigger n in numbers} :: n in numbers <==> PhoneRow(id, n) in rows
    decreases |rows|
  {
    if rows == [] then []
    else
      var last := rows[|rows| - 1];
      NumbersOf(rows[..|rows| - 1], id) + (if last.clientId == id then [last.number] else [])
  }

  /** Every row refers to a key of `clients` (the foreign key with its cascade). */
  ghost predicate References(rows: seq<PhoneRow>, clients: map<int, ClientRow>) {
    forall r :: r in rows ==> r.clientId in clients
  }

  /** Every stored number fits its column. */
  ghost predicate PhonesFit(rows: seq<PhoneRow>) {
    forall r :: r in rows ==> |r.number| <= PhoneWidth
  }

  /** A filter keeps each accepted row as often as it occurs, and no other row. */
  lemma {:induction false} FilterCount(rows: seq<PhoneRow>, keep: PhoneRow -> bool, x: PhoneRow)
    ensures multiset(Filter(rows, keep))[x] == if keep(x) then multiset(rows)[x] else 0
    decreases |rows|
  {
    if rows != [] {
      var init, last := rows[..|rows| - 1], rows[|rows| - 1];
      assert rows == init + [last];
      FilterCount(init, keep, x);
    }
  }

  /** A client's numbers occur as often as the rows that carry them. */
  lemma {:induction false} NumbersOfCount(rows: seq<PhoneRow>, id: int, n: string)
    ensures multiset(NumbersOf(rows, id))[n] == multiset(rows)[PhoneRow(id, n)]
    decreases |rows|
  {
    if rows != [] {
      var init, last := rows[..|rows| - 1], rows[|rows| - 1];
      assert rows == init + [last];
      NumbersOfCount(init, id, n);
    }
  }

  /** A client's numbers depend only on the multiset of rows, not on their order. */
  lemma NumbersOfPermutation(a: seq<PhoneRow>, b: seq<PhoneRow>, id: int)
    requires multiset(a) == multiset(b)
    ensures multiset(NumbersOf(a, id)) == multiset(NumbersOf(b, id))
  {
    forall n: string
      ensures multiset(NumbersOf(a, id))[n] == multiset(NumbersOf(b, id))[n]
    {
      NumbersOfCount(a, id, n);
      NumbersOfCount(b, id, n);
    }
  }

  /** Appending rows appends their numbers. */
  lemma {:induction false} NumbersOfConcat(a: seq<PhoneRow>, b: seq<PhoneRow>, id: int)
    ensures NumbersOf(a + b, id) == NumbersOf(a, id) + NumbersOf(b, id)
    decreases |b|
  {
    if b == [] {
      assert a + b == a;
    } else {
      var init := b[..|b| - 1];
      assert (a + b)[..|a + b| - 1] == a + init;
      NumbersOfConcat(a, init, id);
    }
  }

  /** The inserted rows give client `id` exactly the listed numbers, in list order, and nobody else any. */
  lemma {:induction false} NumbersOfRowsFor(id: int, numbers: seq<string>, k: int)
    ensures NumbersOf(RowsFor(id, numbers), k) == if k == id then numbers else []
    decreases |numbers|
  {
    if numbers != [] {
      var init := numbers[..|numbers| - 1];
      var rows := RowsFor(id, numbers);
      assert rows[..|rows| - 1] == RowsFor(id, init);
      NumbersOfRowsFor(id, init, k);
      assert init + [numbers[|numbers| - 1]] == numbers;
    }
  }

  /** Deleting client `id`'s rows empties its list and leaves every other list as it was. */
  lemma {:induction false} NumbersOfWithout(rows: seq<PhoneRow>, id: int, k: int)
    ensures NumbersOf(Without(rows, id), k) == if k == id then [] else NumbersOf(rows, k)
    decreases |rows|
  {
    if rows != [] {
      var init, last := rows[..|rows| - 1], rows[|rows| - 1];
      NumbersOfWithout(init, id, k);
      var kept := if last.clientId != id then [last] else [];
      assert Without(rows, id) == Without(init, id) + kept;
      NumbersOfConcat(Without(init, id), kept, k);
    }
  }

  /** `ANY(ids)` keeps the whole list of every listed client and nothing of the others. */
  lemma {:induction false} NumbersOfWhere(rows: seq<PhoneRow>, ids: seq<int>, k: int)
    ensures NumbersOf(Where(rows, ids), k) == if k in ids then NumbersOf(rows, k) else []
    decreases |rows|
  {
    if rows != [] {
      var init, last := rows[..|rows| - 1], rows[|rows| - 1];
      NumbersOfWhere(init, ids, k);
      var kept := if last.clientId in ids then [last] else [];
      assert Where(rows, ids) == Where(init, ids) + kept;
      NumbersOfConcat(Where(init, ids), kept, k);
    }
  }

  /**
   * Deleting one number of client `id` removes every copy of it from that
   * client's list and keeps every other number of every client.
   */
  lemma NumbersOfWithoutNumber(rows: seq<PhoneRow>, id: int, number: string, k: int)
    ensures multiset(NumbersOf(WithoutNumber(rows, id, number), k))
         == if k == id then multiset(NumbersOf(rows, k))[number := 0] else multiset(NumbersOf(rows, k))
  {
    forall n: string
      ensures multiset(NumbersOf(WithoutNumber(rows, id, number), k))[n]
           == (if k == id then multiset(NumbersOf(rows, k))[number := 0] else multiset(NumbersOf(rows, k)))[n]
    {
      WithoutNumberCount(rows, id, number, k, n);
    }
  }

  /** How often deleting `(id, number)` leaves number `n` in client `k`'s list. */
  lemma WithoutNumberCount(rows: seq<PhoneRow>, id: int, number: string, k: int, n: string)
    ensures multiset(NumbersOf(WithoutNumber(rows, id, number), k))[n]
         == if k == id && n == number then 0 else multiset(NumbersOf(rows, k))[n]
  {
    var keep := (r: PhoneRow) => !(r.clientId == id && r.number == number);
    assert WithoutNumber(rows, id, number) == Filter(rows, keep);
    NumbersOfCount(WithoutNumber(rows, id, number), k, n);
    NumbersOfCount(rows, k, n);
    FilterCount(rows, keep, PhoneRow(k, n));
    assert keep(PhoneRow(k, n)) <==> !(k == id && n == number);
  }

  /** Rows selected by `ANY(ids)`, in any order, carry a listed client's numbers. */
  lemma SelectedNumbers(rows: seq<PhoneRow>, table: seq<PhoneRow>, ids: seq<int>, k: int)
    requires multiset(rows) == multiset(Where(table, ids)) && k in ids
    ensures multiset(NumbersOf(rows, k)) == multiset(NumbersOf(table, k))
  {
    NumbersOfPermutation(rows, Where(table, ids), k);
    NumbersOfWhere(table, ids, k);
  }

  /** A client no row refers to has no numbers. */
  lemma {:induction false} NumbersOfUnreferenced(rows: seq<PhoneRow>, id: int)
    requires forall r :: r in rows ==> r.clientId != id
    ensures NumbersOf(rows, id) == []
    decreases |rows|
  {
    if rows != [] {
      NumbersOfUnreferenced(rows[..|rows| - 1], id);
    }
  }

  /** Inserting the list for a client no row refers to yet gives it exactly that list and nobody else anything. */
  lemma AppendNumbers(rows: seq<PhoneRow>, id: int, numbers: seq<string>)
    requires forall r :: r in rows ==> r.clientId != id
    ensures NumbersOf(rows + RowsFor(id, numbers), id) == numbers
    ensures forall k :: k != id ==> NumbersOf(rows + RowsFor(id, numbers), k) == NumbersOf(rows, k)
  {
    NumbersOfUnreferenced(rows, id);
    NumbersOfConcat(rows, RowsFor(id, numbers), id);
    NumbersOfRowsFor(id, numbers, id);
    forall k | k != id
      ensures NumbersOf(rows + RowsFor(id, numbers), k) == NumbersOf(rows, k)
    {
      NumbersOfConcat(rows, RowsFor(id, numbers), k);
      NumbersOfRowsFor(id, numbers, k);
    }
  }

  /** Deleting a client's rows from a table with one more row at the end. */
  lemma WithoutSnoc(rows: seq<PhoneRow>, x: PhoneRow, id: int)
    ensures Without(rows + [x], id) == Without(rows, id) + if x.clientId != id then [x] else []
  {
    assert (rows + [x])[..|rows|] == rows;
  }

  /** Deleting the rows of a client that has none changes nothing. */
  lemma {:induction false} WithoutAbsent(rows: seq<PhoneRow>, id: int)
    requires forall r :: r in rows ==> r.clientId != id
    ensures Without(rows, id) == rows
    decreases |rows|
  {
    if rows != [] {
      var init := rows[..|rows| - 1];
      assert rows == init + [rows[|rows| - 1]];
      WithoutAbsent(init, id);
      WithoutSnoc(init, rows[|rows| - 1], id);
    }
  }

  /** The rows inserted for a list carry that client's id and the list's numbers. */
  lemma {:induction false} RowsForMembers(id: int, numbers: seq<string>, x: PhoneRow)
    requires x in RowsFor(id, numbers)
    ensures x.clientId == id && x.number in numbers
    decreases |numbers|
  {
    var init := numbers[..|numbers| - 1];
    if x !in RowsFor(id, init) {
      assert x == PhoneRow(id, numbers[|numbers| - 1]);
    } else {
      RowsForMembers(id, init, x);
    }
  }

  /** The rows of a stored client whose numbers fit keep the phone table well formed. */
  lemma RowsForKeepsTables(rows: seq<PhoneRow>, clients: map<int, ClientRow>, id: int, numbers: seq<string>)
    requires References(rows, clients) && PhonesFit(rows)
    requires id in clients && NumbersFit(numbers)
    ensures References(rows + RowsFor(id, numbers), clients) && PhonesFit(rows + RowsFor(id, numbers))
  {
    forall x | x in rows + RowsFor(id, numbers)
      ensures x.clientId in clients && |x.number| <= PhoneWidth
    {
      if x !in rows {
        RowsForMembers(id, numbers, x);
      }
    }
  }

  /** A row of a stored client whose number fits keeps the phone table well formed. */
  lemma AppendKeepsTables(rows: seq<PhoneRow>, clients: map<int, ClientRow>, x: PhoneRow)
    requires References(rows, clients) && PhonesFit(rows)
    requires x.clientId in clients && |x.number| <= PhoneWidth
    ensures References(rows + [x], clients) && PhonesFit(rows + [x])
  {
  }

  /** Deleting a client's rows keeps every other row's reference and width. */
  lemma WithoutKeepsTables(rows: seq<PhoneRow>, clients: map<int, ClientRow>, id: int)
    requires References(rows, clients) && PhonesFit(rows)
    ensures References(Without(rows, id), clients - {id}) && PhonesFit(Without(rows, id))
  {
  }

  /** Deleting one number's rows keeps the foreign key and the column width. */
  lemma WithoutNumberKeepsTables(rows: seq<PhoneRow>, clients: map<int, ClientRow>, id: int, number: string)
    requires References(rows, clients) && PhonesFit(rows)
    ensures References(WithoutNumber(rows, id, number), clients) && PhonesFit(WithoutNumber(rows, id, number))
  {
  }

  /**
   * Replace-not-diff: after deleting client `id`'s rows and inserting the
   * list, that client's numbers are exactly the list, duplicates included,
   * and every other client's numbers are as they were.
   */
  lemma ReplaceNumbers(rows: seq<PhoneRow>, id: int, numbers: seq<string>)
    ensures NumbersOf(Without(rows, id) + RowsFor(id, numbers), id) == numbers
    ensures forall k :: k != id ==> NumbersOf(Without(rows, id) + RowsFor(id, numbers), k) == NumbersOf(rows, k)
  {
    NumbersOfConcat(Without(rows, id), RowsFor(id, numbers), id);
    NumbersOfWithout(rows, id, id);
    NumbersOfRowsFor(id, numbers, id);
    forall k | k != id
      ensures NumbersOf(Without(rows, id) + RowsFor(id, numbers), k) == NumbersOf(rows, k)
    {
      NumbersOfConcat(Without(rows, id), RowsFor(id, numbers), k);
      NumbersOfWithout(rows, id, k);
      NumbersOfRowsFor(id, numbers, k);
    }
  }
}
