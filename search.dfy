/**
 * The search-query builder of `search_clients`
 * (client_manager/client_manager.py:195-212), with the query kept as a
 * datatype instead of SQL text, and two meanings for a search: what the
 * built query selects, and what the filter asks for. `ilike` stands for
 * the database's `ILIKE`: `ilike(pattern, value)`.
 */
module Search {
  import opened Wrappers
  import opened Tables

  /** The keys `ClientSearchValues` allows. */
  datatype Field = FirstName | LastName | Email | PhoneNumber

  /** The table aliases of the query: `c` for `client`, `cpn` for `client_phone_number`. */
  datatype Alias = C | Cpn

  /** One `alias.field ILIKE %s` condition. */
  datatype Clause = Clause(alias: Alias, field: Field)

  /**
   * `SELECT c.client_id FROM client c [JOIN client_phone_number cpn ON
   * c.client_id = cpn.client_id] WHERE <where joined by AND>`, with `params`
   * bound to the placeholders in order.
   */
  datatype Query = Query(join: bool, where: seq<Clause>, params: seq<string>)

  /** The search dictionary, as its (key, pattern) items in iteration order. */
  type SearchValues = seq<(Field, string)>

  /** `'phone_number' in values`. */
  predicate HasPhoneField(values: SearchValues) {
    exists i :: 0 <= i < |values| && values[i].0 == PhoneNumber
  }

  /** What the builder promises: one clause and one parameter per item, in order, and a join exactly when needed. */
  ghost predicate BuiltFrom(q: Query, values: SearchValues) {
    && (q.join <==> HasPhoneField(values))
    && |q.where| == |values| && |q.params| == |values|
    && (forall i :: 0 <= i < |values| ==>
          q.where[i] == Clause(if values[i].0 == PhoneNumber then Cpn else C, values[i].0))
    && (forall i :: 0 <= i < |values| ==> q.params[i] == values[i].1)
  }

  /** Builds the query of `search_clients` for non-empty or empty `values` alike. */
  method BuildQuery(values: SearchValues) returns (q: Query)
    ensures q.join <==> HasPhoneField(values)
    ensures q.join <==> exists i :: 0 <= i < |q.where| && q.where[i].alias == Cpn
    ensures |q.where| == |values| && |q.params| == |values|
    ensures forall i :: 0 <= i < |values| ==>
              q.where[i] == Clause(if values[i].0 == PhoneNumber then Cpn else C, values[i].0)
    ensures forall i :: 0 <= i < |values| ==> q.params[i] == values[i].1
  {
    var join := exists i :: 0 <= i < |values| && values[i].0 == PhoneNumber;
    var where: seq<Clause>, params: seq<string> := [], [];
    var i := 0;
    while i < |values|
      invariant 0 <= i <= |values|
      invariant |where| == i && |params| == i
      invariant forall j :: 0 <= j < i ==>
                  where[j] == Clause(if values[j].0 == PhoneNumber then Cpn else C, values[j].0)
      invariant forall j :: 0 <= j < i ==> params[j] == values[j].1
    {
      var (field, value) := values[i];
      var table := if field == PhoneNumber then Cpn else C;
      where := where + [Clause(table, field)];
      params := params + [value];
      i := i + 1;
    }
    q := Query(join, where, params);
    if join {
      var k :| 0 <= k < |values| && values[k].0 == PhoneNumber;
      assert q.where[k].alias == Cpn;
    }
  }

  // ---- What the filter asks for ----

  /** The value a search key is matched against: a client column, or the number of a phone row. */
  function Column(f: Field, row: ClientRow, number: Option<string>): (value: Option<string>) {
    match f
    case FirstName => Some(row.firstName)
    case LastName => Some(row.lastName)
    case Email => row.email
    case PhoneNumber => number
  }

  /** `ILIKE` on a `NULL` value is never true. */
  predicate Like(ilike: (string, string) -> bool, pattern: string, value: Option<string>) {
    value.Some? && ilike(pattern, value.value)
  }

  /** Every (key, pattern) item matches. */
  predicate FieldsHold(ilike: (string, string) -> bool, values: SearchValues, row: ClientRow, number: Option<string>) {
    forall i :: 0 <= i < |values| ==> Like(ilike, values[i].1, Column(values[i].0, row, number))
  }

  /**
   * Client `id` answers the search: every name and email pattern matches
   * its row, and, when a phone pattern is given, one of its phone numbers
   * matches it.
   */
  ghost predicate Matches(ilike: (string, string) -> bool, values: SearchValues,
                          clients: map<int, ClientRow>, phones: seq<PhoneRow>, id: int)
  {
    && id in clients
    && if HasPhoneField(values)
       then exists p :: p in phones && p.clientId == id && FieldsHold(ilike, values, clients[id], Some(p.number))
       else FieldsHold(ilike, values, clients[id], None)
  }

  // ---- What the built query selects ----

  /** The value `alias.field` denotes on a (client row, joined phone row) pair; `None` where there is no such column. */
  function ClauseValue(cl: Clause, row: ClientRow, joined: Option<PhoneRow>): (value: Option<string>) {
    match cl.alias
    case C => if cl.field == PhoneNumber then None else Column(cl.field, row, None)
    case Cpn => if cl.field == PhoneNumber && joined.Some? then Some(joined.value.number) else None
  }

  /** The `WHERE` conjunction on one row of `FROM client c [JOIN ...]`. */
  predicate WhereHolds(ilike: (string, string) -> bool, q: Query, row: ClientRow, joined: Option<PhoneRow>) {
    forall i :: 0 <= i < |q.where| && i < |q.params| ==> Like(ilike, q.params[i], ClauseValue(q.where[i], row, joined))
  }

  /** Client `id` is among the ids the query returns. */
  predicate Selects(ilike: (string, string) -> bool, q: Query,
                    clients: map<int, ClientRow>, phones: seq<PhoneRow>, id: int)
  {
    && id in clients
    && if q.join
       then exists p :: p in phones && p.clientId == id && WhereHolds(ilike, q, clients[id], Some(p))
       else WhereHolds(ilike, q, clients[id], None)
  }

  /** A clause the builder emits denotes the value its key is matched against. */
  lemma ClauseMeansColumn(f: Field, row: ClientRow, joined: Option<PhoneRow>)
    requires joined.None? ==> f != PhoneNumber
    ensures ClauseValue(Clause(if f == PhoneNumber then Cpn else C, f), row, joined)
         == Column(f, row, if joined.Some? then Some(joined.value.number) else None)
  {
  }

  /**
   * The `WHERE` conjunction of a query built from `values` holds on a client row,
   * joined with a phone row when the query has the join, exactly when every
   * pattern of `values` matches.
   */
  lemma WhereMeansFields(ilike: (string, string) -> bool, q: Query, values: SearchValues,
                         row: ClientRow, joined: Option<PhoneRow>)
    requires BuiltFrom(q, values)
    requires joined.None? ==> !HasPhoneField(values)
    ensures WhereHolds(ilike, q, row, joined)
        <==> FieldsHold(ilike, values, row, if joined.Some? then Some(joined.value.number) else None)
  {
    var number := if joined.Some? then Some(joined.value.number) else None;
    forall i | 0 <= i < |values|
      ensures ClauseValue(q.where[i], row, joined) == Column(values[i].0, row, number)
    {
      ClauseMeansColumn(values[i].0, row, joined);
    }
  }

  /** The built query selects exactly the clients the filter asks for. */
  lemma QueryMeansFilter(ilike: (string, string) -> bool, q: Query, values: SearchValues,
                         clients: map<int, ClientRow>, phones: seq<PhoneRow>, id: int)
    requires BuiltFrom(q, values)
    ensures Selects(ilike, q, clients, phones, id) <==> Matches(ilike, values, clients, phones, id)
  {
    if id in clients {
      var row := clients[id];
      if q.join {
        forall p | p in phones
          ensures WhereHolds(ilike, q, row, Some(p)) <==> FieldsHold(ilike, values, row, Some(p.number))
        {
          WhereMeansFields(ilike, q, values, row, Some(p));
        }
      } else {
        WhereMeansFields(ilike, q, values, row, None);
      }
    }
  }
}
