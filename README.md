# Telugu Vastu Shodasha Varga calculator — Dafny model

The calculator takes three inputs: the first letter of a village name, the
first letter of a person's name, and a plot area. From these it derives:

- whether the area is one of the good areas;
- the rashi / nakshatram groups of the person's letter;
- a money value and an expense value, by joining the decimal strings of
  the two letter values less `CSUB` and reducing modulo `CVFMAE`;
- sixteen category values `(area * mul[k]) % div[k]`, with `div[k]` in place
  of a zero remainder;
- a verdict for each category (not good, good, or none), found by looking
  for marker words in the category's meaning text;
- a radar-chart colour for each category, by the same marker test.

The model covers these helpers of `Main.py` and the calculation the page runs
on submission. It has four modules:

- `Builtins` (`builtins.dfy`) models the Python built-ins the helpers rest
  on: `str` and `int` for integers, floor modulo `%`, substring `in`,
  `str.join` and `str.capitalize`. Its lemmas prove `int(str(n)) == n` and
  the closed form of `int(f"{a}{b}")`.
- `Dicts` (`dicts.dfy`) models Python's insertion-ordered `dict` as `PyDict`.
- `Data` (`data.dfy`) holds the lookup tables the page imports from its
  `Data` module, as one `Tables` value. Their contents are not part of this
  model, so every operation takes the tables as a parameter and states what
  it needs of them.
- `Main` (`main.dfy`) models the helpers themselves.

The loops of the source are methods, each proved against a specification
function:

- `calculate_vastu`, against `VastuValue`;
- the verdict loop, against `VastuRow` and `Classify`;
- the radar colour loop, against `Classify` and `VerdictColour`;
- `get_letter_group_info`, against `Join`.

The straight-line helpers are functions.

The tables are assumed to meet two conditions, and only the operations that
need them require them:

- every category in `mul` has a non-zero `div` (`Data.DivisorsConfigured`);
- `CVFMAE` is non-zero.

A zero would make Python raise `ZeroDivisionError`. The range facts are
stated for positive divisors, and a negative divisor follows Python's
floor-modulo sign rule.

Three facts about `Main.py` shape the model:

- `calculate_money_expense` raises `ValueError` when either operand is
  negative, because `int` then meets a minus sign inside the joined string;
  see `Main.CalculateMoneyExpense`.
- A rashi row's Letters cell is one string, the group's letters joined with
  `", "`.
- A category's verdict depends only on its meaning text: the not-good marker
  is looked for first, then the good marker.

## Model

| member | source | states |
|---|---|---|
| `Main.LookupLetterValue` | Main.py:19-20 | the table's value for a known letter, exactly 0 for any other; total |
| `Main.Operand` | Main.py:23-26 | the letter value less CSUB, with 52 standing in for a zero difference; never 0 |
| `Builtins.ConcatDecimal` | Main.py:27-28 | `int(f"{a}{b}")` equals `a*10^len(str(b)) + b` for non-negative operands and `a*10^len(str(b)) - b` for negative `a`; a negative `b` raises ValueError |
| `Builtins.ParseIntOfStr` | Main.py:27-28 | `int(str(n)) == n` for every integer: the string form loses nothing |
| `Builtins.DigitsValueAppend` | Main.py:27-28 | reading two digit strings back to back shifts the first left by the length of the second |
| `Main.CalculateMoneyExpense` | Main.py:22-31 | succeeds exactly when both operands are positive; money is village-then-person joined modulo CVFMAE, expense is person-then-village joined modulo CVFMAE; with CVFMAE > 0 both lie in [0, CVFMAE) |
| `Main.MoneyExpenseSwap` | Main.py:27-30 | exchanging the two letter values exchanges money and expense (and errors stay errors) |
| `Main.MoneyExpenseExample` | Main.py:22-31 | letter values 10 and 15 with CSUB 8 and CVFMAE 108 give money 27 and expense 72 |
| `Builtins.PyMod` | Main.py:36 | Python's `%`: for a positive divisor in [0, d) and equal to Dafny's `%`; for a negative divisor in (d, 0] |
| `Main.VastuValue` | Main.py:36-37 | a category value is never 0, lies in [1, d] for d > 0, and keeps the residue of `area*mul` modulo d |
| `Main.CalculateVastu` | Main.py:33-38 | the result has exactly `mul`'s keys in `mul`'s order; each value is that category's `VastuValue`, in [1, div[k]] when div[k] > 0 |
| `Data.Meaning` | Main.py:165 | `meaning_map.get(key, {}).get(val, default)`: the table's text when present, the default otherwise |
| `Main.Classify` | Main.py:168-173 | not good iff the text contains the not-good marker; good iff it contains the good marker but not the not-good one; no verdict iff it lacks the good marker (a not-good text always holds the good marker) |
| `Builtins.ContainsPrefix` | Main.py:168-171 | a text containing a pattern contains every prefix of it, which is why the not-good test must come first |
| `Main.ClassifyMarkersAndDefaults` | Main.py:165-173 | each marker classifies as itself; the em dash default and the empty default give no verdict |
| `Main.VastuRow` | Main.py:164-180 | a category's table row: the capitalized name and the value; the table's meaning when present, otherwise the em dash with no verdict; "not good" exactly when the meaning holds the not-good marker, "good" exactly when it holds the good marker but not the not-good one |
| `Main.VastuItems` | Main.py:163-180 | one row per key of `mul`, in `mul`'s order, each the `VastuRow` of that category's computed value |
| `Main.VerdictLabel` | Main.py:169-173 | the verdict column text; only the neutral verdict reads "-" |
| `Main.StyleVastu` | Main.py:40-46 | all four cells of a row get the green, red or grey background of the row's verdict |
| `Main.RadarColours` | Main.py:54-63 | one colour per result in order: red, green or grey exactly as the verdict of its meaning (empty when missing) is not good, good or none; the first colour repeated at the end |
| `Main.DefaultsAgree` | Main.py:56 | the chart's meaning lookup (default "") and the table's (default em dash) always give the same verdict |
| `Main.LetterGroupInfo` | Main.py:94-105 | the rows are `GroupRows`: `[]` for a letter without rashi entries; otherwise one row per rashi in table order with Rashi == Nakshatram == the rashi and Letters its letters joined by ", "; a row whose letters include the selected letter shows it |
| `Main.GroupRowsShowSelected` | Main.py:99-104 | in any rows that `GroupRows` describes, a rashi whose letters include the selected letter has a Letters text containing it |
| `Builtins.JoinContainsPart` | Main.py:101 | every letter of a group occurs in the joined Letters text |
| `Builtins.JoinLength` | Main.py:101 | the joined text is the letters plus one separator between each neighbouring pair |
| `Main.IsGoodArea` | Main.py:134 | the plot is good exactly when its area is in the good-area table, whatever the categories say |
| `Main.Calculate` | Main.py:131-191 | a submission fails exactly when money/expense raises; otherwise it reports the good-area test, the `GroupRows` of the person's letter (each showing the letter where its rashi lists it), the money and expense values, each category's `VastuValue` under `mul`'s key order, each category's `VastuRow`, and one chart colour per category matching its row's verdict, the first repeated at the end |

## Left out

- Streamlit page setup, the input form, widgets, subheaders and the success and info messages are user interface, not logic.
- Building the plotly figure is a call into a plotting library: the traces, the layout, the axis range from `max(div.values())`, and the category and value lists with their closing repeat. Only the colour classification is modelled.
- The pandas DataFrame construction and the `.style.apply` call wrap a library. `style_vastu` is modelled on one row.
- `style.py` is a CSS string with no logic.
- The contents of the `Data` tables are not shown, so they are parameters.
- `Main.Calculate` requires `mul` to have at least one category. With an empty `mul` the page raises `IndexError` at `categories[0]` (Main.py:68) while building the chart; with an empty `div` the chart's `max(div.values())` (Main.py:86) raises `ValueError`. Neither failure is modelled.
- `Main.Calculate` returns `ValueError` when money/expense raises. It does not model that the page has already shown the plot message and the rashi table at that point.
- `Builtins.ParseInt` accepts only an optional sign followed by ASCII digits. Python's `int` also accepts surrounding whitespace, underscores between digits and non-ASCII decimal digits, which `str` of an integer never produces.
- `Builtins.Capitalize` maps case for ASCII letters only. Python applies full Unicode case mapping; Telugu script has no case.
- Each group's letters are modelled as a sequence of strings. If the table held a plain string instead, `", ".join` would split it into characters.
