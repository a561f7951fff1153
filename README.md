# Finance tracker: transaction validation and filter criteria, in Dafny

This project models two pieces of a desktop personal-finance tracker:

- the **Transaction** value type (`models/transaction.py`): a record of
  description, amount, date, category and optional database id, validated when
  it is constructed by an ordered sequence of guards, and converted to and from
  a five-key dictionary;
- the **filter criteria** that the filter/search dialog hands to the
  transaction query (`FilterDialog.get_filters` in `ui/filter_dialog.py`): a map
  holding only the criteria that are set, keyed `category`, `start_date` and
  `end_date`, and a row limit where 0 means "no limit".

Modules, one per file:

- `Wrappers` (`wrappers.dfy`): `Option` (Python's `None`) and `Result` (a value or a raised error).
- `PyStr` (`py_str.dfy`): the characters Python's `str.isspace` accepts and `str.strip()`.
- `IsoDate` (`iso_date.dfy`): Gregorian calendar dates, and parsing and printing of `YYYY-MM-DD`.
- `Transactions` (`transaction.dfy`): the record, its validity invariant, construction with the
  guards in source order, `to_dict` and `from_dict` over a dictionary of dynamically typed values.
- `FilterDialog` (`filter_dialog.dfy`): `get_filters` as a method that builds the map step by step,
  over the widget values it reads, and the dialog accepted as it opens.

The date check follows the source's own text: the field is documented as
"ISO format: YYYY-MM-DD" (models/transaction.py:27), and the error raised says
"Expected YYYY-MM-DD" (models/transaction.py:43). The model accepts exactly the
strings of that form that name a day of the calendar (see "Left out").

## Model

| member | source | states |
|---|---|---|
| Transactions.New | models/transaction.py:25-43 | Construction fails with the description error iff the description is empty or all whitespace; with the amount error iff the description passed and the amount is 0 (any non-zero amount, positive or negative, passes); with the category error iff both passed and the category is blank; with the date error, quoting the string, iff all three passed and the date is not a valid `YYYY-MM-DD` day; succeeds iff the fields satisfy `Valid`, and then keeps every field unchanged |
| Transactions.Valid | models/transaction.py:31-43 | The construction invariant: description and category not blank, amount non-zero, date a valid `YYYY-MM-DD` day; a valid transaction has non-empty text fields and a 10-character date |
| Transactions.RebuildIffValid | models/transaction.py:31-43 | Validation never alters fields: constructing from a transaction's own fields returns that same transaction exactly when it is valid |
| Transactions.IdIrrelevant | models/transaction.py:29-43 | The id, `None` or not, plays no part in validity or in which error is raised |
| Transactions.AcceptedExamples | models/transaction.py:31-43 | A description with surrounding spaces is kept untrimmed; a negative amount dated on a leap day is accepted |
| Transactions.GuardOrderExamples | models/transaction.py:33-36 | A whitespace-only description is reported first; a zero amount is reported before a blank category or a bad date |
| Transactions.DateGuardExamples | models/transaction.py:39-43 | `2025-02-30` and `not-a-date` fail with the date error carrying the rejected string |
| Transactions.ToDict | models/transaction.py:45-53 | `to_dict` yields exactly the keys id, description, amount, date and category, each carrying its field's value (`None` for a missing id) |
| Transactions.ReadDict | models/transaction.py:58-64 | `from_dict` reads each key with `data.get`: a text field is the string stored, or `""` when the key is missing or holds `None`; the amount is the float or int stored, or `0.0`; the id is the int stored, or `None`. Reading fails, naming the key, iff some key holds a value of a type its field does not admit |
| Transactions.FromDict | models/transaction.py:55-64 | `from_dict` fails with the reading error when reading fails; otherwise it succeeds iff the values read satisfy the construction invariant, then returns exactly those values, and else fails with the first failing guard's error |
| Transactions.MissingKeyFails | models/transaction.py:58-62 | A dictionary missing the description, amount, date or category takes that field's default, which its guard rejects, so `from_dict` fails validation |
| Transactions.MissingDescriptionFails | models/transaction.py:59 | A dictionary without a description fails with the description error, whatever else it holds |
| Transactions.FromToDict | models/transaction.py:45-64 | Round trip: for every valid transaction t, `from_dict(to_dict(t)) == t` |
| Transactions.ToFromDict | models/transaction.py:45-64 | Conversely, a dictionary `from_dict` accepts holds all four data keys, and `to_dict` writes back its text fields and id unchanged and its amount with the same numeric value |
| Transactions.FromDictIgnoresOtherKeys | models/transaction.py:58-64 | Keys other than the five are ignored by `from_dict` |
| Transactions.FromEmptyDict | models/transaction.py:58-64 | Missing keys take the defaults `""`, `0.0`, `""`, `""`, `None`, so `from_dict({})` fails with the description error |
| PyStr.IsWhitespace | models/transaction.py:33-37 | The characters `str.isspace` accepts: space, tab, line feed and carriage return among them, no letter, digit or `-` |
| PyStr.Strip | ui/filter_dialog.py:75 | `strip()` is never longer than its input, and a non-empty result neither starts nor ends with whitespace |
| PyStr.StartIndex | models/transaction.py:33-37 | `strip()` starts at the first character that is not whitespace, with only whitespace before it (or at the end, when there is none) |
| PyStr.EndIndex | models/transaction.py:33-37 | `strip()` ends just past the last character that is not whitespace, with only whitespace after it (or at its start, when there is none) |
| PyStr.StripIsInfix | ui/filter_dialog.py:75 | `strip()` returns the infix surrounded only by whitespace whose first and last characters are not whitespace |
| PyStr.StripEmptyIffBlank | models/transaction.py:33-38 | `not s.strip()` holds exactly when every character of `s` is whitespace, the empty string included |
| IsoDate.DaysInMonth | models/transaction.py:39-43 | Months have 28 to 31 days; February has 29 exactly in Gregorian leap years |
| IsoDate.ParseIsoDate | models/transaction.py:39-43 | A string that parses names a valid calendar day (month 1 to 12, day within the month, year 1 to 9999) |
| IsoDate.FormatIsoDate | ui/filter_dialog.py:82-83 | A date printed as `yyyy-MM-dd` has four year digits, a dash, two month digits, a dash and two day digits |
| IsoDate.ParseFormat | ui/filter_dialog.py:82-83 | Every date printed as `yyyy-MM-dd` parses back to itself, so the dialog's dates pass the transaction's date check |
| IsoDate.FormatParse | models/transaction.py:27 | Every string that passes the date check is the printed form of the date it names: strings and dates correspond one to one |
| IsoDate.ValidDateExamples | models/transaction.py:39-43 | `2024-02-29` and `2025-12-01` parse to the days they name |
| IsoDate.InvalidDateExamples | models/transaction.py:39-43 | `2025-02-29`, `2025-02-30`, `2025-13-01` and `not-a-date` are rejected |
| FilterDialog.GetFilters | ui/filter_dialog.py:68-95 | The map has no keys but `category`, `start_date`, `end_date`; `category` is present iff the category text is not blank, carrying the stripped text; each date key is present iff its string is non-empty, carrying it unchanged; the limit is None iff the value is 0 and is the value otherwise, so within the spin box's range it is None or in 1..100000 |
| FilterDialog.InitialFilters | ui/filter_dialog.py:26-49 | The combo box lists a blank entry first, then the category names; the dialog accepted as it opens therefore filters on the date range alone, whatever the category list (even an empty one), with limit 100 |

## Left out

- IsoDate.ParseIsoDate: accepts only the documented 10-character `YYYY-MM-DD` form with ASCII digits. Python's `datetime.fromisoformat` accepts more, and what it accepts depends on the Python version: a time part after the date, and from 3.11 compact forms (`20251201`) and week dates (`2025-W01-1`). The model rejects those strings.
- Transactions.New: the amount is a mathematical real. Python floats are not modelled: a NaN amount passes the `== 0` guard, and `-0.0` fails it like `0.0`.
- Transactions.FromDict: Python does not check field types; the model reads a value of a type its field cannot hold as `IllTyped(key)`, and differs from Python in three ways. (1) A `None` date is rejected by the date guard in both, but Python's message quotes `None` where the model's `InvalidDate` carries `""`. (2) An int or float date fails the date guard in Python (the `TypeError` from `fromisoformat` is caught) with the date error; the model reports `IllTyped("date")`. (3) `IllTyped` is reported before any guard runs, while Python runs the guards in order: `{"description": "", "date": 5}` raises the description error in Python and yields `IllTyped("date")` in the model. Other ill-typed values: a non-empty non-text description or category makes Python raise `AttributeError` (a falsy one such as `0` gets that field's `ValueError`), a text amount passes Python's `== 0` guard, and a non-int id is stored as is; the model reports `IllTyped` for each.
- Transactions.ToFromDict: an int amount read by `from_dict` is written back by `to_dict` as a float (`FloatValue`) in the model, while Python keeps the int object; only the numeric value is promised equal.
- `Transaction.__repr__`: its output depends on Python's float formatting.
- FilterDialog.GetFilters: the `try`/`except` blocks around reading the widgets swallow exceptions that the widgets do not raise in practice. These are not modelled. The current date, which sets the date editors' defaults, is a parameter of `InitialFilters`.
- FilterDialog.CategoryItems: entries whose `str()` raises are skipped in the source. Dafny category names are always strings, so this case cannot arise in the model.
- The Qt widgets, layout and dialog buttons of `FilterDialog.__init__`; the database gateway, the CSV import/export, the main window, the transaction form and the reports view. None of these is part of this model.
