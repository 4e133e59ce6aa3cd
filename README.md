# Bugs table row shaping

A Dafny model of the row-building half of the Soundwave bugs-table loader
(`experimental/soundwave/soundwave/tables/bugs.py`). The loader receives a list
of issue records, each of the form `{"bug": {...}}`. For every record it copies
the issue mapping, replaces the three list-valued fields `cc`, `components` and
`labels` by their comma-joined form (`None` when the list is empty), and
projects the mapping onto the fixed eleven-column order `id, summary,
published, updated, state, status, author, owner, cc, components, labels`,
giving one row per record in input order. The first column, `id`, is the
table's index.

Files:

- `wrappers.dfy` — `Option` (Python's `None`) and `Result` (a failed assertion).
- `comma_list.dfy` — module `CommaList`: `Join` (`','.join`), its partner `Split`
  (`str.split(',')`), `CommaSeparate` (`_CommaSeparate` on a list), and the
  round-trip, order and length lemmas.
- `bugs.dfy` — module `Bugs`: the `COLUMNS`, `INDEX` and list-key constants; JSON
  values and issue mappings; `CheckedCommaSeparate`, which also models the
  assertion that the argument is a list; the declarative row specification
  `ExpectedRow`; the two loops (`FlattenLists`, `RowsFromJson`); and a typed
  view of the wire format (`Bug`, `Row`) tied to the mapping view.

A joined field can hold empty elements: `_CommaSeparate` does not filter
empty strings, so `CommaSeparate([""])` is `Some("")` and
`CommaSeparate(["", "a"])` is `Some(",a")`; `EmptyMarkerDistinguishes` records
the first case.

## Model

| member | source | states |
|---|---|---|
| `CommaList.CommaSeparate` | experimental/soundwave/soundwave/tables/bugs.py:26-29 | the result is absent exactly when the list is empty; a present result is at least as long as the separators it needs |
| `CommaList.Split` | experimental/soundwave/soundwave/tables/bugs.py:17-19 | reading a comma-separated string back always gives at least one piece |
| `CommaList.JoinLength` | experimental/soundwave/soundwave/tables/bugs.py:27 | the join of a non-empty list is as long as its elements together plus one character per gap between neighbours |
| `CommaList.SplitJoin` | experimental/soundwave/soundwave/tables/bugs.py:27 | splitting the join of a non-empty list of comma-free strings gives back the list, elements in their original order |
| `CommaList.JoinAppend` | experimental/soundwave/soundwave/tables/bugs.py:27 | the join is order-preserving: joining a concatenation joins the two halves around one comma |
| `CommaList.JoinInjective` | experimental/soundwave/soundwave/tables/bugs.py:27 | two non-empty comma-free lists with the same join are equal |
| `CommaList.CommaSeparateRoundTrip` | experimental/soundwave/soundwave/tables/bugs.py:17-29 | for comma-free elements the column round-trips: absent means the empty list, a present string splits back into the list |
| `CommaList.CommaSeparateInjective` | experimental/soundwave/soundwave/tables/bugs.py:26-29 | on comma-free lists, the empty list included, equal column values come from equal lists |
| `CommaList.EmptyMarkerDistinguishes` | experimental/soundwave/soundwave/tables/bugs.py:26-29 | the empty list and the list of one empty string join to the same text, and only the absent marker tells them apart |
| `Bugs.CheckedCommaSeparate` | experimental/soundwave/soundwave/tables/bugs.py:24-29 | a value that is not a list fails the assertion; a list gives the absent marker exactly when empty, a string otherwise |
| `Bugs.ColumnsDistinct` | experimental/soundwave/soundwave/tables/bugs.py:8-20 | the column names, and the three list keys, are pairwise distinct |
| `Bugs.RowShape` | experimental/soundwave/soundwave/tables/bugs.py:8-21 | every row has eleven cells, the index column is `id`, and the row's first cell is the issue's id |
| `Bugs.ProjectFlattened` | experimental/soundwave/soundwave/tables/bugs.py:36-38 | projecting the copy after its list fields were flattened, other fields untouched, gives the expected row: only `cc`, `components` and `labels` are transformed, every other column is copied |
| `Bugs.FlattenLists` | experimental/soundwave/soundwave/tables/bugs.py:35-37 | the copied mapping keeps its keys, its three list fields become their comma-separated form, every other field is unchanged; it fails exactly when some list field is not a list |
| `Bugs.RowsFromJson` | experimental/soundwave/soundwave/tables/bugs.py:32-38 | the build succeeds exactly when every record's list fields are lists; then there is one row per record, in input order, row `i` being the expected row of record `i` |
| `Bugs.Row.Cells` | experimental/soundwave/soundwave/tables/bugs.py:8-20 | a typed row gives exactly one cell per column |
| `Bugs.ToMapping` | experimental/soundwave/soundwave/tables/bugs.py:35 | the mapping of a well-typed issue has every column and its list fields are lists, so the build cannot fail on it |
| `Bugs.TypedRowAgrees` | experimental/soundwave/soundwave/tables/bugs.py:33-38 | the row built from a typed issue is the typed row: scalars copied, lists comma-separated, in column order |

## Left out

- Building the pandas table (`DataFrame.from_records`, the `id` index, duplicate ids) at line 40: a foreign library call. The rows are handed over as sequences of cells; nothing here deduplicates ids, as the source does not.
- Converting `published` and `updated` with `pandas.to_datetime` at lines 41-42: library date parsing. Timestamps are carried through as opaque strings, and the parse failure is not modelled.
- Missing keys (`KeyError` on `row['bug']` or on a column): the loops require every column to be present (`HasColumns`); the wrapper record holds only its `bug` mapping.
- Lists holding non-strings, on which `','.join` raises `TypeError`: a list value holds strings only.
- Aliasing of Python dictionaries: records are values, so the `.copy()` at line 35 and the guarantee that the caller's records are left unchanged hold by construction rather than being stated as a frame.
- The assertion at line 25 is assumed enabled. Under `python -O` it is removed, and a bare string would be joined character by character; the model always fails on a non-list instead.
