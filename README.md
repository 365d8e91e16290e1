# Client directory repository, modelled in Dafny

This project models `ClientManager`, the repository layer of a small client
directory. It stores clients (first name, last name, optional email) and
their phone numbers in two tables, `client` and `client_phone_number`. It
offers add, load, batched load, update, delete, search, and
add/delete-one-phone-number, plus the `Client` entity's display string.

The database is replaced by an abstract in-memory store. The class
`Manager.ClientManager` has one field per table:

- `clients`: a map from `client_id` to the row's names and email;
- `phones`: a sequence of `(client_id, phone_number)` rows with no key;
- `serial`: the next value of the `SERIAL` sequence.

A ghost counter `selects` counts the `SELECT` statements issued. Only the
statement methods change it (`SelectClient`, `SelectClientRows`,
`LoadPhoneNumbers`, `SelectPhoneRows`, `SelectIds`), each by exactly one.
Every read states how many statements it issues, as a count derived from
the statements it calls.

Each public method is one atomic step on these fields. `Valid()` holds the
schema's guarantees:

- every id is at least 1 and below the sequence's next value, which starts at 1;
- every value fits its `VARCHAR` column;
- every phone row refers to a live client. This is the foreign key with
  `ON DELETE CASCADE`.

Every write keeps `Valid()` and states its whole new state.

Reads from the phone table go through methods whose contracts give the rows
only as a multiset, because the database promises no order. So every
property a caller can rely on about phone lists is a multiset property.
`ILIKE` is the constant `ilike(pattern, value)`, given to the constructor
and otherwise uninterpreted.

Modules:

- `Wrappers`: `Option` and `Result`.
- `Model`: `client_manager/model.py` (`Client`, `__init__`, `__str__`), plus
  the dictionary shapes of `client_manager/types.py` and the error of
  `client_manager/errors.py`.
- `Tables`: the row types and the statements on the phone table as
  functions, with lemmas on what each does to every client's numbers.
- `Search`: the query builder of `search_clients`, with the query as a
  datatype. It gives two meanings for a search: what the built query
  selects (`Selects`) and what the filter asks for (`Matches`).
  `QueryMeansFilter` proves they agree.
- `Manager`: the `ClientManager` class.
- `Scenario`: the calls of `client_manager_test.py:13-143` on the test's own
  data, as one chain of methods. Each step's precondition is the exact store
  the previous step leaves, and each step ends by calling the next. The step
  methods have no postconditions. Lemmas beside them state what each
  statement leaves in the tables and which clients each search matches.
  After each call, the step asserts:
  - the returned client's id and fields, and its numbers as a multiset;
  - its display string exactly, for the test's comparisons at lines 24, 28,
    32, 44, 56, 74, 80 and 86. Lines 80 and 86 display the entity the test
    holds, which the model keeps as `m`, not a reloaded client;
  - where the store hands back two numbers (lines 28, 44 and 56), the string
    for one order or the other, because the database promises no row order;
  - that client 3 is gone at lines 62 and 67, with no client row and no
    phone rows, and the error of lines 88-92 with its text;
  - for each search of lines 94-136, exactly which ids come back, and each
    client's display string exactly. Two-number lists are again in either
    order. The test compares a list in the dictionary's entry order; the
    model checks each entry by its key and does not model the entry order.

  Each string is written as two literals joined before the number list:
  `"(2) Bruce Dickinson <b.dickinson@ironmaiden.com>" + " [+441111111111, +442222222222]"`.
  `TestPatterns` lists the `ILIKE` answers the searches need. The last
  search comes back as `Some(map[])`, an empty dictionary, where line 143
  expects `None`.

Two behaviours of the code are easy to miss:

- `add_phone_number` (client_manager.py:226-228) on a missing id is not a
  no-op. The foreign key at client_manager.py:49 rejects the insert. The
  model therefore requires the id to exist.
- `delete_phone_number` (client_manager.py:242-251) on a missing id deletes
  nothing. It returns what `load_client` returns, which is `None`.

## Model

| member | source | states |
|---|---|---|
| Model.NewClient | client_manager/model.py:7-12 | id, names and email come from their keys; email defaults to `None` and the phone list to `[]` when absent |
| Model.Message | client_manager/client_manager.py:171 | the error text starts with `Client with ID=` and ends with ` does not exist`; what lies between is a decimal numeral that reads back as the id |
| Model.NatToStringDecimal | client_manager/client_manager.py:171 | the id printed by the f-string is all decimal digits, non-empty, has no leading zero unless it is `0`, and reads back as the id |
| Model.IntToStringDecimal | client_manager/client_manager.py:171 | any printed int, negative ones with a leading `-`, is a numeral that reads back as that int |
| Model.IntToStringInjective | client_manager/client_manager.py:171 | different ids print differently |
| Model.MessageCarriesId | client_manager/client_manager.py:171 | the error text is `Client with ID=`, then the printed id, then ` does not exist` |
| Model.MessageNamesId | client_manager/client_manager.py:171 | two errors with the same text are about the same id |
| Model.Message999 | client_manager_test.py:88-92 | the error for the missing client 999 reads `Client with ID=999 does not exist` |
| Model.Str | client_manager/model.py:14-20 | the display string is the header `(id) first last`, then ` <email>` exactly when the email is truthy, then ` [n1, n2, ...]` joined by `, ` exactly when there is a phone number, with email before phones |
| Model.StrStartsWithHeader | client_manager/model.py:15-20 | every display string begins with `(id) first_name last_name`, with single spaces between them |
| Model.StrShowsEmail | client_manager/model.py:16-17 | ` <` follows the header if and only if the email is neither `None` nor empty |
| Model.StrBare | client_manager/model.py:14-20 | with no truthy email and no phone numbers the display string is the header alone |
| Model.StrRafaelNadal | client_manager_test.py:70-74 | a client 4 with only names displays as `(4) Rafael Nadal` |
| Model.StrMichaelKeaton | client_manager_test.py:16-24 | client 1 with email and one number displays as `(1) Michael Keaton <m.keaton@hollywood.com> [+12222222222]` |
| Tables.Filter | client_manager/client_manager.py:243-248 | a `DELETE` keeps exactly the rows of the table that its condition spares |
| Tables.Where | client_manager/client_manager.py:130-133 | `WHERE client_id = ANY(ids)` keeps exactly the rows whose client is among the ids |
| Tables.Without | client_manager/client_manager.py:308-311 | deleting a client's rows keeps exactly the rows of other clients; the cascade of client_manager.py:49 and 181-183 leaves the same |
| Tables.WithoutNumber | client_manager/client_manager.py:243-248 | deleting `(id, number)` keeps exactly the rows that differ from that pair |
| Tables.RowsFor | client_manager/client_manager.py:264-267 | one `INSERT` per number: as many rows as numbers |
| Tables.NumbersOf | client_manager/client_manager.py:277-282 | a client's list is no longer than the table, and holds a number exactly when the row `(id, number)` is in the table |
| Tables.FilterCount | client_manager/client_manager.py:243-248 | a `DELETE`/`WHERE` on phone rows keeps each accepted row exactly as often as it occurs and drops every other row |
| Tables.NumbersOfCount | client_manager/client_manager.py:277-282 | a number occurs in a client's list exactly as often as the row `(id, number)` occurs in the table |
| Tables.NumbersOfPermutation | client_manager/client_manager.py:130-137 | a client's numbers, as a multiset, do not depend on the order the rows come in |
| Tables.NumbersOfConcat | client_manager/client_manager.py:264-267 | appending rows appends exactly their numbers to each client's list |
| Tables.NumbersOfRowsFor | client_manager/client_manager.py:262-267 | the inserted rows give their client exactly the listed numbers in list order, and no other client any |
| Tables.RowsForMembers | client_manager/client_manager.py:264-267 | every inserted row belongs to the given client and carries one of the listed numbers |
| Tables.RowsForKeepsTables | client_manager/client_manager.py:47-51 | inserting a live client's numbers that fit `VARCHAR(20)` keeps the foreign key and the column width |
| Tables.AppendKeepsTables | client_manager/client_manager.py:226-228 | one row of a live client with a number that fits keeps the foreign key and the column width |
| Tables.NumbersOfWithout | client_manager/client_manager.py:308-311 | deleting a client's rows empties its list and leaves every other client's list unchanged |
| Tables.WithoutAbsent | client_manager/client_manager.py:181-183 | deleting the rows of a client that has none leaves the table as it was |
| Tables.WithoutSnoc | client_manager/client_manager.py:308-311 | deleting a client's rows from a table with one more row keeps that row exactly when it belongs to another client |
| Tables.WithoutNumberKeepsTables | client_manager/client_manager.py:243-248 | deleting one number's rows keeps the foreign key and the column width |
| Tables.NumbersOfWhere | client_manager/client_manager.py:130-133 | `client_id = ANY(ids)` keeps the full list of each listed client and nothing of the others |
| Tables.SelectedNumbers | client_manager/client_manager.py:130-137 | rows returned by `ANY(ids)` in any order carry, as a multiset, exactly the numbers of each listed client |
| Tables.NumbersOfWithoutNumber | client_manager/client_manager.py:242-248 | deleting `(id, number)` removes every copy of that number from client `id` and keeps all its other numbers and every other client's |
| Tables.WithoutNumberCount | client_manager/client_manager.py:242-248 | after deleting `(id, number)` the number occurs in client `id`'s list zero times, and every other number as often as before |
| Tables.NumbersOfUnreferenced | client_manager/client_manager.py:49 | a client that no row refers to has no numbers |
| Tables.AppendNumbers | client_manager/client_manager.py:85-88 | the rows inserted for a fresh id give that client exactly the listed numbers and leave every other client's list as it was |
| Tables.ReplaceNumbers | client_manager/client_manager.py:293-296 | delete-all then insert-all makes the client's numbers exactly the new list, duplicates included and extras gone, and leaves every other client's numbers as they were |
| Search.BuildQuery | client_manager/client_manager.py:199-208 | a join exactly when `phone_number` is a key, and exactly when some clause uses `cpn`; one clause per item in iteration order, alias `cpn` for `phone_number` and `c` for every other key; parameters are the patterns in the same order |
| Search.ClauseMeansColumn | client_manager/client_manager.py:205-206 | the clause built for a key denotes the column that key names (the phone row's number under `cpn`) |
| Search.WhereMeansFields | client_manager/client_manager.py:204-208 | the `WHERE` conjunction of a built query holds on a row pair exactly when every pattern of the filter matches |
| Search.QueryMeansFilter | client_manager/client_manager.py:199-211 | the built query selects client `id` exactly when its names and email match their patterns and, when a phone pattern is given, one of its numbers matches it |
| Manager.AttachNumbers | client_manager/client_manager.py:134-137 | every loaded client gets, appended to its list, exactly its numbers in row order; rows of ids not loaded are ignored and no key is added |
| Manager.ClientManager.constructor | client_manager/client_manager.py:13-14 | a manager starts on empty tables with the sequence at 1 and no statement issued |
| Manager.ClientManager.SelectClient | client_manager/client_manager.py:102-106 | one select; `None` exactly when no row has the id, the stored row otherwise |
| Manager.ClientManager.SelectClientRows | client_manager/client_manager.py:123-127 | one select; the keys are exactly the listed ids that exist, each with its stored row |
| Manager.ClientManager.LoadPhoneNumbers | client_manager/client_manager.py:270-282 | one select; returns the client's numbers, as a multiset exactly those of its rows |
| Manager.ClientManager.SelectPhoneRows | client_manager/client_manager.py:130-134 | one select; returns, in some order, exactly the phone rows whose client is among the ids |
| Manager.ClientManager.SelectIds | client_manager/client_manager.py:210-212 | one select; returns exactly the ids the query selects |
| Manager.ClientManager.LoadClient | client_manager/client_manager.py:93-112 | `None` exactly when no client row has the id, after one select; otherwise that row's fields and, as a multiset, exactly the numbers of its phone rows, after two |
| Manager.ClientManager.LoadClients | client_manager/client_manager.py:114-139 | the keys are exactly the input ids that exist; each entry is the stored client, rows of other ids ignored; exactly two selects whatever the number of ids |
| Manager.ClientManager.SearchClients | client_manager/client_manager.py:185-214 | an empty filter returns `None` with no select; otherwise exactly the clients matching every pattern, each as stored, after three selects |
| Manager.ClientManager.InsertClient | client_manager/client_manager.py:75-85 | the row goes under the sequence's next value, which no stored client has, and the sequence advances by one |
| Manager.ClientManager.AddPhoneNumbers | client_manager/client_manager.py:254-268 | appends one row per number in list order; nothing for an absent or empty list; the client table is unchanged |
| Manager.ClientManager.DeletePhoneNumbers | client_manager/client_manager.py:301-311 | removes exactly the client's rows and keeps every other row |
| Manager.ClientManager.SetPhoneNumbers | client_manager/client_manager.py:284-299 | the client's rows become exactly the new list; returns the reloaded client, `None` exactly when it does not exist |
| Manager.ClientManager.AddClient | client_manager/client_manager.py:66-91 | one client row under a fresh id that was never issued before, one phone row per number in list order, other clients unchanged; returns what `load_client` of the new id gives, after two selects |
| Manager.ClientManager.UpdateRow | client_manager/client_manager.py:150-164 | the `UPDATE ... RETURNING` reports a row exactly when the id exists, then overwrites that row alone; a missing id changes nothing |
| Manager.ClientManager.UpdateClient | client_manager/client_manager.py:141-171 | a missing id fails with `ClientNotExists`, issues no select and changes neither table, whatever the entity's numbers; otherwise the fields are overwritten, the client's numbers become exactly the entity's list, other clients are untouched, and the reloaded client is returned after four selects |
| Manager.ClientManager.DeleteClient | client_manager/client_manager.py:173-183 | removes the client row and, by the cascade, all its rows; other clients unchanged; a missing id changes nothing |
| Manager.ClientManager.AddPhoneNumber | client_manager/client_manager.py:217-232 | appends exactly one row with no duplicate check; returns the reloaded client with that number added once more |
| Manager.ClientManager.DeletePhoneNumber | client_manager/client_manager.py:234-251 | removes every row with that client and that exact number and keeps all other rows; returns the reloaded client, `None` for a missing id |
| Scenario.FirstNumbers | client_manager_test.py:16-24 | after the first insert, client 1's list is its one number |
| Scenario.SecondNumberKept | client_manager_test.py:26-32 | deleting `+12222222222` leaves client 1 with `+13333333333` alone, and the table with that one row |
| Scenario.DickinsonRows | client_manager_test.py:34-44 | client 2's insert appends its two rows in list order |
| Scenario.GuyRows | client_manager_test.py:46-56 | client 3's insert appends its two rows in list order |
| Scenario.GuyRowsDeleted | client_manager_test.py:58-59 | deleting client 3 removes exactly its two rows |
| Scenario.GuyDeleted | client_manager_test.py:58-59 | deleting client 3 leaves the rows of clients 1 and 2 |
| Scenario.GuyGone | client_manager_test.py:64-67 | no phone row of client 3 is left |
| Scenario.NadalRenamed | client_manager_test.py:76-80 | the update rewrites client 4's row and leaves the phone table as it was |
| Scenario.NadalNumbers | client_manager_test.py:82-86 | setting client 4's numbers appends its two rows to the kept ones |
| Scenario.NadalUnchanged | client_manager_test.py:82-86 | the second update writes client 4's row unchanged |
| Scenario.StrKeatonBoth | client_manager_test.py:26-28 | client 1 with both numbers displays as `(1) Michael Keaton <m.keaton@hollywood.com> [+12222222222, +13333333333]`, or with the two numbers swapped |
| Scenario.StrKeatonKept | client_manager_test.py:30-32 | client 1 with the second number alone displays as `(1) Michael Keaton <m.keaton@hollywood.com> [+13333333333]` |
| Scenario.StrDickinson | client_manager_test.py:34-44 | client 2 displays as `(2) Bruce Dickinson <b.dickinson@ironmaiden.com> [+441111111111, +442222222222]`, or with the two numbers swapped |
| Scenario.StrGuy | client_manager_test.py:46-56 | client 3 displays as `(3) Some Guy <s.guy@guys.ru> [+71111111111, +72222222222]`, or with the two numbers swapped |
| Scenario.StrNadalParera | client_manager_test.py:76-80 | the renamed client 4 with no numbers displays as `(4) Rafael Nadal Parera <r.nadal@rafaelnadal.com>` |
| Scenario.StrNadalNumbers | client_manager_test.py:82-86 | the entity with its two appended numbers displays as `(4) Rafael Nadal Parera <r.nadal@rafaelnadal.com> [+341111111111, +342222222222]` |
| Scenario.StrNadalLoaded | client_manager_test.py:111-119 | client 4 as loaded back displays as in line 86, or with the two numbers swapped |
| Scenario.StrSplit | client_manager/model.py:14-20 | a display with a truthy email and some numbers is its part up to the email followed by its bracketed number list |
| Scenario.NumbersOfSnoc | client_manager/client_manager.py:277-282 | one more phone row adds its number at the end of its own client's list and changes no other list |
| Scenario.FinalNumbers | client_manager_test.py:30-86 | after the updates, client 1 has `+13333333333`, client 2 its two numbers and client 4 its two numbers, in row order |
| Scenario.KeatonFound | client_manager_test.py:94-100 | client 1 as a search loads it from the final store displays as in line 32; lines 106 and 134 show the same |
| Scenario.DickinsonFound | client_manager_test.py:102-109 | client 2 as a search loads it from the final store displays as in line 44, in either number order; line 125 shows the same |
| Scenario.NadalFound | client_manager_test.py:121-128 | client 4 as a search loads it from the final store displays as in line 86, in either number order; line 117 shows the same |
| Scenario.FirstNameHits | client_manager_test.py:94-100 | on the final store `michael` matches client 1 only |
| Scenario.LastNameHits | client_manager_test.py:102-109 | on the final store `%on` matches clients 1 and 2 only |
| Scenario.LettersHits | client_manager_test.py:111-119 | on the final store `%a%` in the first name and `%r%` in the email match client 4 only |
| Scenario.LocalNumberHits | client_manager_test.py:121-128 | on the final store `%1111111111` matches a number of clients 2 and 4 only |
| Scenario.FullNumberHits | client_manager_test.py:130-136 | on the final store `+13333333333` matches a number of client 1 only |
| Scenario.NobodyHits | client_manager_test.py:138-143 | on the final store no client is both `Michael` and `Dickinson` |

## Left out

- Connections, cursors and `conn.commit()`: each public call is one atomic state change, so the partial states between statements are not modelled.
- `setup`, `ensure_tables` and `drop_tables` (DDL): the constructor starts on empty tables. The foreign key and its cascade live on as part of `Valid()`.
- Store-side rejections are preconditions, not modelled failures. These are the `VARCHAR(100)`/`VARCHAR(20)` limits, and the foreign key refusing a phone row for a missing client. `NOT NULL` on the names is ensured by typing.
- `ILIKE` semantics (case folding, `%` and `_`) are not modelled: `ilike` is an arbitrary function. `NULL` never matches.
- The SQL text that `psycopg.sql` composes is not modelled; the query is the `Search.Query` datatype.
- The `SERIAL` sequence is an unbounded counter starting at 1. Its 32-bit overflow and the gaps left by failed inserts are not modelled.
- Database row order: the model keeps rows in insertion order. No read's result depends on that order: phone lists reach callers only as multisets. The write contracts state `phones` as a sequence. The list comparisons in `client_manager_test.py` rely on an order the database does not promise.
- Manager.ClientManager.SelectIds: returns each selected id once. With the join, the database returns an id once per matching phone row. `load_clients` gives the same result either way.
- Aliasing: `Client` is a value, so sharing one mutable `phone_numbers` list between Python objects is not modelled. Neither are fields set to `None` against their declared types.
- `client_manager_test.py` as a harness: it reads `db.txt` and opens a live connection. Its last assertion (`clients is None`, line 143) contradicts `search_clients`, which returns a possibly empty dictionary for a non-empty filter. `Scenario.SearchNobody` asserts the `Some(map[])` the model returns there instead.
- Keys outside the search allowlist: Python would pass them to the database, which would reject them. The `Search.Field` type admits only the four allowed keys.
- Model.Message999: states the text of the error, `str(e.value)`. Line 92 of `client_manager_test.py` never runs: `cm.update_client(client)` on line 91 raises inside `with raises(...)`, so control leaves the block before line 92. Were it reached, it would compare `e.value`, the exception object itself, with the string, which is `False` in Python. The model does not model exception equality.
