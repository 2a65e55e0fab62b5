/** The calculation helpers of the Telugu Vastu Shodasha Varga calculator
    page, and the calculation the page runs when its form is submitted. */
module Main {
  import opened Builtins
  import opened Dicts
  import opened Data

  // ---------------------------------------------------------------
  // Letter values
  // ---------------------------------------------------------------

  /** `lookup_letter_value`: the table's value of a letter, 0 for a letter
      the table does not know. */
  function LookupLetterValue(t: Tables, letter: Letter): (v: int)
    ensures letter in t.teluguLetters ==> v == t.teluguLetters[letter]
    ensures letter !in t.teluguLetters ==> v == 0
  {
    if letter in t.teluguLetters then t.teluguLetters[letter] else 0
  }

  // ---------------------------------------------------------------
  // Money and expense
  // ---------------------------------------------------------------

  /** A letter value less CSUB, with the literal 52 in place of a zero
      difference, so an operand of the formula is never 0. */
  function Operand(value: int, csub: int): (r: int)
    ensures r != 0
    ensures value != csub ==> r == value - csub
    ensures value == csub ==> r == 52
  {
    var minus := value - csub;
    if minus != 0 then minus else 52
  }

  datatype MoneyExpense = MoneyExpense(money: int, expense: int)

  function Swapped(r: Result<MoneyExpense>): Result<MoneyExpense> {
    match r
    case Ok(me) => Ok(MoneyExpense(me.expense, me.money))
    case ValueError => ValueError
  }

  /** `calculate_money_expense`: money joins the decimal strings village
      operand then person operand, expense joins them the other way round,
      and each joined number is reduced modulo CVFMAE. A negative operand
      puts a minus sign in the middle of one of the two joined strings, so
      `int` raises `ValueError` unless both operands are positive. */
  function CalculateMoneyExpense(t: Tables, vVal: int, nVal: int): (r: Result<MoneyExpense>)
    requires t.cvfmae != 0
    ensures var m, p := Operand(vVal, t.csub), Operand(nVal, t.csub);
      && (r.Ok? <==> m > 0 && p > 0)
      && (r.Ok? ==>
            && r.value.money == PyMod(m * Pow10(|Str(p)|) + p, t.cvfmae)
            && r.value.expense == PyMod(p * Pow10(|Str(m)|) + m, t.cvfmae))
      && (r.Ok? && t.cvfmae > 0 ==>
            && 0 <= r.value.money < t.cvfmae
            && 0 <= r.value.expense < t.cvfmae)
  {
    var money := Operand(vVal, t.csub);
    var personName := Operand(nVal, t.csub);
    var moneyConcat := ConcatDecimal(money, personName);
    if moneyConcat.ValueError? then ValueError else
    var expenseConcat := ConcatDecimal(personName, money);
    if expenseConcat.ValueError? then ValueError else
    Ok(MoneyExpense(PyMod(moneyConcat.value, t.cvfmae), PyMod(expenseConcat.value, t.cvfmae)))
  }

  /** Exchanging the two letters exchanges money and expense. */
  lemma MoneyExpenseSwap(t: Tables, vVal: int, nVal: int)
    requires t.cvfmae != 0
    ensures CalculateMoneyExpense(t, nVal, vVal) == Swapped(CalculateMoneyExpense(t, vVal, nVal))
  {
  }

  /** Letter values 10 and 15 with CSUB 8 give operands 2 and 7, joined
      as 27 and 72, both below a CVFMAE of 108. */
  lemma MoneyExpenseExample()
    ensures CalculateMoneyExpense(Tables(map[], Empty(), map[], 8, 108, map[], map[], {}), 10, 15)
         == Ok(MoneyExpense(27, 72))
  {
  }

  // ---------------------------------------------------------------
  // The sixteen categories
  // ---------------------------------------------------------------

  /** The value of one category: `(area * m) % d`, with `d` in place of a
      zero remainder. The substitution keeps the value's residue modulo
      `d` and moves it into `[1, d]` (into `[d, -1]` for a negative `d`). */
  function VastuValue(area: int, m: int, d: int): (r: int)
    requires d != 0
    ensures r != 0
    ensures d > 0 ==> 1 <= r <= d
    ensures d < 0 ==> d <= r <= -1
    ensures PyMod(r, d) == PyMod(area * m, d)
  {
    var computed := PyMod(area * m, d);
    PyModOfRemainder(computed, d);
    if computed != 0 then computed else d
  }

  /** A remainder of `d`, and `d` itself, reduce to themselves and to 0. */
  lemma PyModOfRemainder(c: int, d: int)
    requires d > 0 ==> 0 <= c < d
    requires d < 0 ==> d < c <= 0
    requires d != 0
    ensures PyMod(c, d) == c
    ensures PyMod(d, d) == 0
  {
    if d < 0 {
      assert (-c) % (-d) == -c;
    }
  }

  /** `calculate_vastu`: one entry per key of `mul`, in `mul`'s order,
      holding that category's value. */
  method CalculateVastu(t: Tables, area: int) returns (results: Dict<Category, int>)
    requires DivisorsConfigured(t)
    ensures results.Valid()
    ensures results.keys == t.mul.keys
    ensures results.entries.Keys == t.mul.entries.Keys
    ensures forall k :: k in results.entries ==>
      results.entries[k] == VastuValue(area, t.mul.entries[k], t.div[k])
    ensures forall k :: k in results.entries && t.div[k] > 0 ==>
      1 <= results.entries[k] <= t.div[k]
  {
    results := Empty();
    for i := 0 to |t.mul.keys|
      invariant results.Valid()
      invariant results.keys == t.mul.keys[..i]
      invariant forall k :: k in results.entries ==>
        k in t.mul.entries && results.entries[k] == VastuValue(area, t.mul.entries[k], t.div[k])
    {
      var key := t.mul.keys[i];
      assert key !in results.keys;
      var computed := PyMod(area * t.mul.entries[key], t.div[key]);
      ghost var value := if computed != 0 then computed else t.div[key];
      assert value == VastuValue(area, t.mul.entries[key], t.div[key]);
      assert t.mul.keys[..i + 1] == t.mul.keys[..i] + [key];
      results := results.Set(key, if computed != 0 then computed else t.div[key]);
    }
    assert t.mul.keys[..|t.mul.keys|] == t.mul.keys;
    SameOrderSameKeys(results, t.mul);
  }

  // ---------------------------------------------------------------
  // Verdicts
  // ---------------------------------------------------------------

  /** "Not good" (మంచిదికాదు). */
  const NotGoodMarker: string :=
    "\U{0C2E}\U{0C02}\U{0C1A}\U{0C3F}\U{0C26}\U{0C3F}\U{0C15}\U{0C3E}\U{0C26}\U{0C41}"
  /** "Good" (మంచిది): the first six characters of the not-good marker. */
  const GoodMarker: string := "\U{0C2E}\U{0C02}\U{0C1A}\U{0C3F}\U{0C26}\U{0C3F}"
  /** The em dash the results table shows for a pair without a meaning. */
  const MissingMeaning: string := "\U{2014}"

  datatype Verdict = NotGood | Good | NoVerdict

  /** The text the results table shows in its Verdict column. */
  function VerdictLabel(v: Verdict): (text: string)
    ensures v == NoVerdict <==> text == "-"
  {
    match v
    case NotGood => NotGoodMarker
    case Good => GoodMarker
    case NoVerdict => "-"
  }

  /** The verdict of a meaning text: the not-good marker is looked for
      first, because a text holding it also holds the good marker. */
  function Classify(meaning: string): (v: Verdict)
    ensures v == NotGood <==> Contains(meaning, NotGoodMarker)
    ensures v == Good <==> Contains(meaning, GoodMarker) && !Contains(meaning, NotGoodMarker)
    ensures v == NoVerdict <==> !Contains(meaning, GoodMarker)
  {
    if Contains(meaning, NotGoodMarker) then
      ContainsPrefix(meaning, NotGoodMarker, GoodMarker);
      NotGood
    else if Contains(meaning, GoodMarker) then
      Good
    else
      NoVerdict
  }

  /** The markers classify as themselves, and both default texts ("" for
      the chart, the em dash for the table) give no verdict. */
  lemma ClassifyMarkersAndDefaults()
    ensures Classify(NotGoodMarker) == NotGood
    ensures Classify(GoodMarker) == Good
    ensures Classify(MissingMeaning) == NoVerdict
    ensures Classify("") == NoVerdict
  {
    assert OccursAt(NotGoodMarker, NotGoodMarker, 0);
    assert OccursAt(GoodMarker, GoodMarker, 0);
  }

  /** The table's meaning lookup and the chart's differ only in their
      default, and the two defaults get the same verdict. */
  lemma DefaultsAgree(t: Tables, key: Category, val: int)
    ensures Classify(Meaning(t, key, val, MissingMeaning)) == Classify(Meaning(t, key, val, ""))
  {
  }

  /** One row of the results table. */
  datatype VastuItem = VastuItem(name: string, value: int, meaning: string, verdict: Verdict)

  /** The row of a category with value `val`: its capitalized name and the
      value; the table's meaning when it has one, otherwise the em dash and
      no verdict; "not good" exactly when the meaning holds the not-good
      marker, and "good" exactly when it holds the good marker but not the
      not-good one. */
  function VastuRow(t: Tables, key: Category, val: int): (row: VastuItem)
    ensures row.name == Capitalize(key) && row.value == val
    ensures key in t.meaningMap && val in t.meaningMap[key] ==> row.meaning == t.meaningMap[key][val]
    ensures !(key in t.meaningMap && val in t.meaningMap[key]) ==>
      row.meaning == MissingMeaning && row.verdict == NoVerdict
    ensures row.verdict == NotGood <==> Contains(row.meaning, NotGoodMarker)
    ensures row.verdict == Good <==> Contains(row.meaning, GoodMarker) && !Contains(row.meaning, NotGoodMarker)
  {
    ClassifyMarkersAndDefaults();
    var meaning := Meaning(t, key, val, MissingMeaning);
    VastuItem(Capitalize(key), val, meaning, Classify(meaning))
  }

  /** The loop that builds the results table: one row per key of `mul`,
      in `mul`'s order, for that category's computed value. */
  method VastuItems(t: Tables, results: PyDict<Category, int>) returns (items: seq<VastuItem>)
    requires forall k :: k in t.mul.entries ==> k in results.entries
    ensures |items| == |t.mul.keys|
    ensures forall i :: 0 <= i < |items| ==>
      items[i] == VastuRow(t, t.mul.keys[i], results.entries[t.mul.keys[i]])
  {
    items := [];
    for i := 0 to |t.mul.keys|
      invariant |items| == i
      invariant forall j :: 0 <= j < i ==>
        items[j] == VastuRow(t, t.mul.keys[j], results.entries[t.mul.keys[j]])
    {
      var key := t.mul.keys[i];
      var val := results.entries[key];
      var meaning := if key in t.meaningMap && val in t.meaningMap[key]
                     then t.meaningMap[key][val] else MissingMeaning;
      var verdict;
      if Contains(meaning, NotGoodMarker) {
        verdict := NotGood;
      } else if Contains(meaning, GoodMarker) {
        verdict := Good;
      } else {
        verdict := NoVerdict;
      }
      assert VastuItem(Capitalize(key), val, meaning, verdict) == VastuRow(t, key, val);
      items := items + [VastuItem(Capitalize(key), val, meaning, verdict)];
    }
  }

  const GoodBackground: string := "background-color: #c6f5d3"
  const NotGoodBackground: string := "background-color: #f5c6c6"
  const NeutralBackground: string := "background-color: #f0f0f0"

  function VerdictBackground(v: Verdict): string {
    match v
    case Good => GoodBackground
    case NotGood => NotGoodBackground
    case NoVerdict => NeutralBackground
  }

  /** `style_vastu`: every one of a row's four cells gets the background
      of the row's verdict, comparing the verdict's label text. */
  function StyleVastu(row: VastuItem): (styles: seq<string>)
    ensures |styles| == 4
    ensures forall i :: 0 <= i < 4 ==> styles[i] == VerdictBackground(row.verdict)
  {
    var verdict := VerdictLabel(row.verdict);
    var background :=
      if verdict == GoodMarker then GoodBackground
      else if verdict == NotGoodMarker then NotGoodBackground
      else NeutralBackground;
    seq(4, _ => background)
  }

  // ---------------------------------------------------------------
  // Radar chart colours
  // ---------------------------------------------------------------

  datatype Colour = Red | Green | Grey

  function VerdictColour(v: Verdict): Colour {
    match v
    case NotGood => Red
    case Good => Green
    case NoVerdict => Grey
  }

  /** The colour loop of `create_radar_chart_plotly`: one colour per
      result, in the results' order, red, green or grey as the verdict of
      its meaning (the empty text when there is none) is not good, good or
      none; the first colour is repeated at the end to close the polygon. */
  method RadarColours(t: Tables, results: PyDict<Category, int>) returns (colours: seq<Colour>)
    ensures |results.keys| == 0 ==> colours == []
    ensures |results.keys| > 0 ==>
      |colours| == |results.keys| + 1 && colours[|results.keys|] == colours[0]
    ensures forall i :: 0 <= i < |results.keys| ==>
      var key := results.keys[i];
      colours[i] == VerdictColour(Classify(Meaning(t, key, results.entries[key], "")))
  {
    colours := [];
    for i := 0 to |results.keys|
      invariant |colours| == i
      invariant forall j :: 0 <= j < i ==>
        var key := results.keys[j];
        colours[j] == VerdictColour(Classify(Meaning(t, key, results.entries[key], "")))
    {
      var key := results.keys[i];
      var val := results.entries[key];
      var meaning := if key in t.meaningMap && val in t.meaningMap[key]
                     then t.meaningMap[key][val] else "";
      if Contains(meaning, NotGoodMarker) {
        colours := colours + [Red];
      } else if Contains(meaning, GoodMarker) {
        colours := colours + [Green];
      } else {
        colours := colours + [Grey];
      }
      assert colours[i] == VerdictColour(Classify(meaning));
    }
    colours := colours + colours[..if |colours| > 0 then 1 else 0];
  }

  // ---------------------------------------------------------------
  // Rashi groups and good areas
  // ---------------------------------------------------------------

  /** One row of the rashi / nakshatram table. */
  datatype GroupInfo = GroupInfo(letters: string, rashi: string, nakshatram: string)

  /** The rows `get_letter_group_info` returns for `selected`: none for a
      letter without rashi entries; otherwise one row per rashi of the
      letter, in table order, naming the rashi twice and listing its
      letters separated by ", ". */
  ghost predicate GroupRows(t: Tables, selected: Letter, info: seq<GroupInfo>) {
    if selected !in t.letterRangeRashi then info == []
    else
      var groups := t.letterRangeRashi[selected];
      && |info| == |groups.keys|
      && forall i :: 0 <= i < |info| ==>
           && info[i].rashi == groups.keys[i]
           && info[i].nakshatram == groups.keys[i]
           && info[i].letters == Join(groups.entries[groups.keys[i]], ", ")
  }

  /** A row whose rashi lists the selected letter shows that letter. */
  lemma GroupRowsShowSelected(t: Tables, selected: Letter, info: seq<GroupInfo>)
    requires GroupRows(t, selected, info)
    ensures selected in t.letterRangeRashi ==>
      var groups := t.letterRangeRashi[selected];
      forall i :: 0 <= i < |info| && selected in groups.entries[groups.keys[i]] ==>
        Contains(info[i].letters, selected)
  {
    if selected in t.letterRangeRashi {
      var groups := t.letterRangeRashi[selected];
      forall i | 0 <= i < |info| && selected in groups.entries[groups.keys[i]]
        ensures Contains(info[i].letters, selected)
      {
        var letters := groups.entries[groups.keys[i]];
        var k :| 0 <= k < |letters| && letters[k] == selected;
        JoinContainsPart(letters, ", ", k);
      }
    }
  }

  /** `get_letter_group_info`, proved against `GroupRows`. */
  method LetterGroupInfo(t: Tables, selected: Letter) returns (info: seq<GroupInfo>)
    ensures GroupRows(t, selected, info)
    ensures selected in t.letterRangeRashi ==>
      var groups := t.letterRangeRashi[selected];
      forall i :: 0 <= i < |info| && selected in groups.entries[groups.keys[i]] ==>
        Contains(info[i].letters, selected)
  {
    if selected !in t.letterRangeRashi {
      return [];
    }
    var groups := t.letterRangeRashi[selected];
    info := [];
    for i := 0 to |groups.keys|
      invariant |info| == i
      invariant forall j :: 0 <= j < i ==>
        && info[j].rashi == groups.keys[j]
        && info[j].nakshatram == groups.keys[j]
        && info[j].letters == Join(groups.entries[groups.keys[j]], ", ")
    {
      var rashi := groups.keys[i];
      var letters := groups.entries[rashi];
      info := info + [GroupInfo(Join(letters, ", "), rashi, rashi)];
    }
    GroupRowsShowSelected(t, selected, info);
  }

  /** The plot is good by itself when its area is one of the good areas. */
  function IsGoodArea(t: Tables, area: int): (good: bool)
    ensures good <==> area in t.goodAreas
  {
    area in t.goodAreas
  }

  // ---------------------------------------------------------------
  // The calculation run on submission
  // ---------------------------------------------------------------

  datatype Report = Report(
    goodPlot: bool,
    groups: seq<GroupInfo>,
    moneyExpense: MoneyExpense,
    vastu: PyDict<Category, int>,
    items: seq<VastuItem>,
    colours: seq<Colour>)

  /** What the page computes when the form is submitted, in the page's
      order. The money and expense step raises `ValueError` for a negative
      operand, which ends the run. A finished run reports the good-area
      test, the rashi rows of the person's letter, the money and expense
      values, each category's value, its table row, and a chart colour that
      agrees with the row's verdict. */
  method Calculate(t: Tables, villageLetter: Letter, personLetter: Letter, area: int)
    returns (r: Result<Report>)
    requires DivisorsConfigured(t) && t.cvfmae != 0 && |t.mul.keys| > 0
    ensures var me := CalculateMoneyExpense(t, LookupLetterValue(t, villageLetter),
                                             LookupLetterValue(t, personLetter));
      && (r.Ok? <==> me.Ok?)
      && (r.Ok? ==> r.value.moneyExpense == me.value)
    ensures r.Ok? ==> r.value.goodPlot == (area in t.goodAreas)
    ensures r.Ok? ==> GroupRows(t, personLetter, r.value.groups)
    ensures r.Ok? && personLetter in t.letterRangeRashi ==>
      var groups := t.letterRangeRashi[personLetter];
      forall i :: 0 <= i < |r.value.groups| && personLetter in groups.entries[groups.keys[i]] ==>
        Contains(r.value.groups[i].letters, personLetter)
    ensures r.Ok? ==>
      && r.value.vastu.keys == t.mul.keys
      && forall k :: k in t.mul.entries ==>
           k in r.value.vastu.entries
           && r.value.vastu.entries[k] == VastuValue(area, t.mul.entries[k], t.div[k])
    ensures r.Ok? ==>
      && |r.value.items| == |t.mul.keys|
      && |r.value.colours| == |t.mul.keys| + 1
      && r.value.colours[|t.mul.keys|] == r.value.colours[0]
    ensures r.Ok? ==> forall i :: 0 <= i < |t.mul.keys| ==>
      && r.value.items[i] == VastuRow(t, t.mul.keys[i], r.value.vastu.entries[t.mul.keys[i]])
      && r.value.colours[i] == VerdictColour(r.value.items[i].verdict)
  {
    var goodPlot := IsGoodArea(t, area);
    var groups := LetterGroupInfo(t, personLetter);
    var vVal := LookupLetterValue(t, villageLetter);
    var nVal := LookupLetterValue(t, personLetter);
    var me := CalculateMoneyExpense(t, vVal, nVal);
    if me.ValueError? {
      return ValueError;
    }
    var vastu := CalculateVastu(t, area);
    var items := VastuItems(t, vastu);
    var colours := RadarColours(t, vastu);
    forall i | 0 <= i < |t.mul.keys|
      ensures colours[i] == VerdictColour(items[i].verdict)
    {
      var key := t.mul.keys[i];
      DefaultsAgree(t, key, vastu.entries[key]);
    }
    r := Ok(Report(goodPlot, groups, me.value, vastu, items, colours));
  }
}
