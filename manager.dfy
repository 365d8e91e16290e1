/**
 * `ClientManager` (client_manager/client_manager.py:10-311) over an
 * in-memory store: its two fields are the database's two tables, and each
 * public method is one atomic step on them.
 */
module Manager {
  import opened Wrappers
  import opened Model
  import opened Tables
  import opened Search

  /** `values.get('phone_numbers')` read as a list: an absent list inserts nothing. */
  function OrEmpty(numbers: Option<seq<string>>): (ns: seq<string>) {
    match numbers
    case Some(ns) => ns
    case None => []
  }

  /**
   * The loop of `load_clients` (client_manager.py:134-137): each phone row,
   * in the order the database returned it, is appended to its client's list.
   */
  method AttachNumbers(found: map<int, Client>, rows: seq<PhoneRow>) returns (r: map<int, Client>)
    ensures r.Keys == found.Keys
    ensures forall k :: k in r ==> r[k] == found[k].(phoneNumbers := found[k].phoneNumbers + NumbersOf(rows, k))
  {
    r := found;
    var i := 0;
    while i < |rows|
      invariant 0 <= i <= |rows|
      invariant r.Keys == found.Keys
      invariant forall k :: k in r ==> r[k] == found[k].(phoneNumbers := found[k].phoneNumbers + NumbersOf(rows[..i], k))
    {
      var item := rows[i];
      if item.clientId in r {
        var client := r[item.clientId];
        r := r[item.clientId := client.(phoneNumbers := client.phoneNumbers + [item.number])];
      }
      assert rows[..i + 1][..i] == rows[..i];
      i := i + 1;
    }
    assert rows[..i] == rows;
  }

  class ClientManager {
    /** Table `client`, keyed by `client_id`. */
    var clients: map<int, ClientRow>
    /** Table `client_phone_number`, in the order rows were inserted. */
    var phones: seq<PhoneRow>
    /** The next value of the `SERIAL` sequence behind `client_id`. */
    var serial: int
    /** The number of `SELECT` statements issued so far; only the statement methods below change it. */
    ghost var selects: nat
    /** The database's `ILIKE`, as `ilike(pattern, value)`. */
    const ilike: (string, string) -> bool

    /**
     * The schema's guarantees: every key was issued by the sequence, which
     * starts at 1, every row fits its columns, and every phone row refers
     * to a live client.
     */
    ghost predicate Valid()
      reads this`clients, this`phones, this`serial
    {
      && 1 <= serial
      && (forall id :: id in clients ==> 1 <= id < serial)
      && (forall id :: id in clients ==> RowFits(clients[id]))
      && References(phones, clients)
      && PhonesFit(phones)
    }

    /** `c` is the client stored under `id`, with its phone numbers in any order. */
    ghost predicate Loaded(c: Client, id: int)
      reads this`clients, this`phones
    {
      && id in clients
      && c.id == id
      && c.firstName == clients[id].firstName
      && c.lastName == clients[id].lastName
      && c.email == clients[id].email
      && multiset(c.phoneNumbers) == multiset(NumbersOf(phones, id))
    }

    /** A manager on freshly created, empty tables. */
    constructor (ilike: (string, string) -> bool)
      ensures Valid()
      ensures clients == map[] && phones == [] && serial == 1 && this.ilike == ilike
      ensures selects == 0
    {
      clients := map[];
      phones := [];
      serial := 1;
      selects := 0;
      this.ilike := ilike;
    }

    // ---- Statements: each issues one SELECT ----

    /** `SELECT * FROM client WHERE client_id = %s`: the row, if the key exists. */
    method SelectClient(id: int) returns (row: Option<ClientRow>)
      modifies this`selects
      ensures selects == old(selects) + 1
      ensures row.None? <==> id !in clients
      ensures row.Some? ==> row.value == clients[id]
    {
      selects := selects + 1;
      row := if id in clients then Some(clients[id]) else None;
    }

    /** `SELECT * FROM client WHERE client_id = ANY(ids)`, keyed by `client_id` as the dictionary built from it. */
    method SelectClientRows(ids: seq<int>) returns (rows: map<int, ClientRow>)
      modifies this`selects
      ensures selects == old(selects) + 1
      ensures rows.Keys == set id | id in ids && id in clients
      ensures forall id :: id in rows ==> rows[id] == clients[id]
    {
      selects := selects + 1;
      rows := map id | id in clients && id in ids :: clients[id];
    }

    /** `SELECT phone_number FROM client_phone_number WHERE client_id = %s`, in whatever order the database returns. */
    method LoadPhoneNumbers(id: int) returns (numbers: seq<string>)
      modifies this`selects
      ensures selects == old(selects) + 1
      ensures multiset(numbers) == multiset(NumbersOf(phones, id))
    {
      selects := selects + 1;
      numbers := NumbersOf(phones, id);
    }

    /** `SELECT * FROM client_phone_number WHERE client_id = ANY(ids)`, in whatever order the database returns. */
    method SelectPhoneRows(ids: seq<int>) returns (rows: seq<PhoneRow>)
      modifies this`selects
      ensures selects == old(selects) + 1
      ensures multiset(rows) == multiset(Where(phones, ids))
    {
      selects := selects + 1;
      rows := Where(phones, ids);
    }

    /** The ids the search query returns, in whatever order the database returns them. */
    method SelectIds(q: Query) returns (ids: seq<int>)
      modifies this`selects
      ensures selects == old(selects) + 1
      ensures forall id :: id in ids <==> Selects(ilike, q, clients, phones, id)
    {
      selects := selects + 1;
      var rest := set id | id in clients && Selects(ilike, q, clients, phones, id);
      ids := [];
      while rest != {}
        invariant forall id :: (id in ids || id in rest) <==> Selects(ilike, q, clients, phones, id)
        decreases rest
      {
        var id :| id in rest;
        ids := ids + [id];
        rest := rest - {id};
      }
    }

    // ---- Reads ----

    /** `load_client`: `None` exactly when there is no such client, else the stored client; its numbers cost a second select. */
    method LoadClient(id: int) returns (r: Option<Client>)
      modifies this`selects
      ensures selects == old(selects) + if id in clients then 2 else 1
      ensures r.None? <==> id !in clients
      ensures r.Some? ==> Loaded(r.value, id)
    {
      var data := SelectClient(id);
      if data.Some? {
        var client := NewClient(RowValues(id, data.value));
        var numbers := LoadPhoneNumbers(id);
        client := client.(phoneNumbers := numbers);
        r := Some(client);
      } else {
        r := None;
      }
    }

    /** `load_clients`: one client select and one phone select, joined in memory, however many ids there are. */
    method LoadClients(ids: seq<int>) returns (r: map<int, Client>)
      modifies this`selects
      ensures selects == old(selects) + 2
      ensures r.Keys == set id | id in ids && id in clients
      ensures forall id :: id in r ==> Loaded(r[id], id)
    {
      var data := SelectClientRows(ids);
      var found := map id | id in data :: NewClient(RowValues(id, data[id]));
      assert found.Keys == data.Keys;
      var rows := SelectPhoneRows(ids);
      r := AttachNumbers(found, rows);
      forall k | k in r
        ensures Loaded(r[k], k)
      {
        SelectedNumbers(rows, phones, ids, k);
      }
    }

    /**
     * `search_clients`: no statement at all for an empty filter; otherwise
     * the id query and `load_clients` of its answer, three selects in all.
     */
    method SearchClients(values: SearchValues) returns (r: Option<map<int, Client>>)
      modifies this`selects
      ensures selects == old(selects) + if values == [] then 0 else 3
      ensures r.None? <==> values == []
      ensures r.Some? ==> forall id :: id in r.value <==> Matches(ilike, values, clients, phones, id)
      ensures r.Some? ==> forall id :: id in r.value ==> Loaded(r.value[id], id)
    {
      if values == [] {
        return None;
      }
      var q := BuildQuery(values);
      var ids := SelectIds(q);
      var found := LoadClients(ids);
      r := Some(found);
      forall id
        ensures id in found <==> Matches(ilike, values, clients, phones, id)
      {
        QueryMeansFilter(ilike, q, values, clients, phones, id);
      }
    }

    // ---- Writes ----

    /** `INSERT INTO client ... RETURNING client_id`: the row under the next id of the sequence. */
    method InsertClient(row: ClientRow) returns (id: int)
      requires Valid() && RowFits(row)
      modifies this`clients, this`serial
      ensures Valid()
      ensures id == old(serial) && id !in old(clients) && serial == old(serial) + 1
      ensures clients == old(clients)[id := row]
    {
      id := serial;
      clients := clients[id := row];
      serial := serial + 1;
    }

    /** `_add_phone_numbers`: one `INSERT` per number, in list order; nothing for `None` or `[]`. */
    method AddPhoneNumbers(id: int, numbers: Option<seq<string>>)
      requires Valid()
      requires NumbersFit(OrEmpty(numbers))
      requires OrEmpty(numbers) != [] ==> id in clients
      modifies this`phones
      ensures Valid()
      ensures phones == old(phones) + RowsFor(id, OrEmpty(numbers))
    {
      if numbers.Some? && numbers.value != [] {
        var list := numbers.value;
        var i := 0;
        while i < |list|
          invariant 0 <= i <= |list|
          invariant phones == old(phones) + RowsFor(id, list[..i])
        {
          assert list[..i + 1][..i] == list[..i];
          phones := phones + [PhoneRow(id, list[i])];
          i := i + 1;
        }
        assert list[..i] == list;
        RowsForKeepsTables(old(phones), clients, id, list);
      }
    }

    /** `_delete_phone_numbers`: removes every row of client `id`. */
    method DeletePhoneNumbers(id: int)
      requires Valid()
      modifies this`phones
      ensures Valid()
      ensures phones == Without(old(phones), id)
    {
      phones := Without(phones, id);
    }

    /** `_set_phone_numbers`: replaces client `id`'s rows by the list, then reloads the client. */
    method SetPhoneNumbers(id: int, numbers: seq<string>) returns (r: Option<Client>)
      requires Valid()
      requires NumbersFit(numbers)
      requires numbers != [] ==> id in clients
      modifies this`phones, this`selects
      ensures Valid()
      ensures phones == Without(old(phones), id) + RowsFor(id, numbers)
      ensures selects == old(selects) + if id in clients then 2 else 1
      ensures r.None? <==> id !in clients
      ensures r.Some? ==> Loaded(r.value, id)
    {
      DeletePhoneNumbers(id);
      AddPhoneNumbers(id, Some(numbers));
      r := LoadClient(id);
    }

    /** `add_client`: the client row under a fresh id, one phone row per number, then the reloaded client. */
    method AddClient(values: ContactValues) returns (c: Client)
      requires Valid()
      requires RowFits(ClientRow(values.firstName, values.lastName, values.email))
      requires NumbersFit(OrEmpty(values.phoneNumbers))
      modifies this
      ensures Valid()
      ensures c.id == old(serial) && c.id !in old(clients) && serial == old(serial) + 1
      ensures clients == old(clients)[c.id := ClientRow(values.firstName, values.lastName, values.email)]
      ensures phones == old(phones) + RowsFor(c.id, OrEmpty(values.phoneNumbers))
      ensures selects == old(selects) + 2
      ensures Loaded(c, c.id)
      ensures multiset(c.phoneNumbers) == multiset(OrEmpty(values.phoneNumbers))
      ensures forall k :: k != c.id ==> NumbersOf(phones, k) == NumbersOf(old(phones), k)
    {
      var id := InsertClient(ClientRow(values.firstName, values.lastName, values.email));
      AddPhoneNumbers(id, values.phoneNumbers);
      var loaded := LoadClient(id);
      c := loaded.value;
      AppendNumbers(old(phones), id, OrEmpty(values.phoneNumbers));
    }

    /** The `UPDATE client ... RETURNING client_id` of `update_client`: overwrites an existing row, reports whether there was one. */
    method UpdateRow(id: int, row: ClientRow) returns (found: bool)
      requires Valid() && RowFits(row)
      modifies this`clients
      ensures Valid()
      ensures found <==> id in old(clients)
      ensures clients == if found then old(clients)[id := row] else old(clients)
    {
      found := id in clients;
      if found {
        clients := clients[id := row];
      }
    }

    /**
     * `update_client`: fails with `ClientNotExists` and changes nothing when
     * there is no such client, whatever its numbers; otherwise overwrites
     * its fields, replaces its phone rows by the client's list and returns
     * the client reloaded (`_set_phone_numbers` reloads it once already,
     * hence four selects).
     */
    method UpdateClient(client: Client) returns (r: Result<Client, ClientError>)
      requires Valid()
      requires RowFits(ClientRow(client.firstName, client.lastName, client.email))
      requires client.id in clients ==> NumbersFit(client.phoneNumbers)
      modifies this`clients, this`phones, this`selects
      ensures Valid()
      ensures client.id !in old(clients) ==>
                && r == Failure(ClientNotExists(client.id))
                && clients == old(clients) && phones == old(phones) && selects == old(selects)
      ensures client.id in old(clients) ==>
                && clients == old(clients)[client.id := ClientRow(client.firstName, client.lastName, client.email)]
                && phones == Without(old(phones), client.id) + RowsFor(client.id, client.phoneNumbers)
                && selects == old(selects) + 4
                && r.Success? && Loaded(r.value, client.id)
                && multiset(NumbersOf(phones, client.id)) == multiset(client.phoneNumbers)
                && forall k :: k != client.id ==> NumbersOf(phones, k) == NumbersOf(old(phones), k)
    {
      var found := UpdateRow(client.id, ClientRow(client.firstName, client.lastName, client.email));
      if found {
        var _ := SetPhoneNumbers(client.id, client.phoneNumbers);
        var loaded := LoadClient(client.id);
        r := Success(loaded.value);
        ReplaceNumbers(old(phones), client.id, client.phoneNumbers);
      } else {
        r := Failure(ClientNotExists(client.id));
      }
    }

    /** `delete_client`: the client row and, by the cascade, all its phone rows. */
    method DeleteClient(id: int)
      requires Valid()
      modifies this`clients, this`phones
      ensures Valid()
      ensures clients == old(clients) - {id}
      ensures phones == Without(old(phones), id)
      ensures NumbersOf(phones, id) == []
      ensures forall k :: k != id ==> NumbersOf(phones, k) == NumbersOf(old(phones), k)
      ensures id !in old(clients) ==> clients == old(clients) && phones == old(phones)
    {
      var before := phones;
      if id !in clients {
        WithoutAbsent(before, id);
      }
      WithoutKeepsTables(before, clients, id);
      NumbersOfWithout(before, id, id);
      forall k | k != id
        ensures NumbersOf(Without(before, id), k) == NumbersOf(before, k)
      {
        NumbersOfWithout(before, id, k);
      }
      clients := clients - {id};
      phones := Without(before, id);
    }

    /** `add_phone_number`: one more row, duplicates allowed, then the reloaded client. */
    method AddPhoneNumber(id: int, number: string) returns (c: Client)
      requires Valid()
      requires id in clients
      requires |number| <= PhoneWidth
      modifies this`phones, this`selects
      ensures Valid()
      ensures phones == old(phones) + [PhoneRow(id, number)]
      ensures selects == old(selects) + 2
      ensures c.id == id && Loaded(c, id)
      ensures multiset(c.phoneNumbers) == multiset(NumbersOf(old(phones), id)) + multiset{number}
      ensures forall k :: k != id ==> NumbersOf(phones, k) == NumbersOf(old(phones), k)
    {
      AppendKeepsTables(phones, clients, PhoneRow(id, number));
      phones := phones + [PhoneRow(id, number)];
      var loaded := LoadClient(id);
      c := loaded.value;
      assert phones[..|phones| - 1] == old(phones);
    }

    /** `delete_phone_number`: removes every row with that client and that exact number, then reloads the client. */
    method DeletePhoneNumber(id: int, number: string) returns (r: Option<Client>)
      requires Valid()
      modifies this`phones, this`selects
      ensures Valid()
      ensures phones == WithoutNumber(old(phones), id, number)
      ensures selects == old(selects) + if id in clients then 2 else 1
      ensures r.None? <==> id !in clients
      ensures r.Some? ==> Loaded(r.value, id)
                          && multiset(r.value.phoneNumbers) == multiset(NumbersOf(old(phones), id))[number := 0]
      ensures forall k :: k != id ==> multiset(NumbersOf(phones, k)) == multiset(NumbersOf(old(phones), k))
    {
      WithoutNumberKeepsTables(phones, clients, id, number);
      phones := WithoutNumber(phones, id, number);
      r := LoadClient(id);
      NumbersOfWithoutNumber(old(phones), id, number, id);
      forall k | k != id
        ensures multiset(NumbersOf(phones, k)) == multiset(NumbersOf(old(phones), k))
      {
        NumbersOfWithoutNumber(old(phones), id, number, k);
      }
    }
  }
}
