/** The lookup tables the calculator imports from its `Data` module. Their
    contents are not part of this model: every operation takes them as a
    parameter and states what it needs of them. */
module Data {
  import opened Dicts

  type Letter = string
  type Category = string

  datatype Tables = Tables(
    /** `telugu_letters`: the value of each first letter. */
    teluguLetters: map<Letter, int>,
    /** `mul`: the multiplier of each of the sixteen categories, in order. */
    mul: PyDict<Category, int>,
    /** `div`: the divisor of each category. */
    div: map<Category, int>,
    /** `CSUB`: subtracted from both letter values. */
    csub: int,
    /** `CVFMAE`: the modulus of the money and expense values. */
    cvfmae: int,
    /** `meaning_map`: the text for a (category, value) pair. */
    meaningMap: map<Category, map<int, string>>,
    /** `letter_range_rashi_dynamic`: for a letter, its rashis in order, each
        with the letters that share it. */
    letterRangeRashi: map<Letter, PyDict<string, seq<Letter>>>,
    /** `good_areas`: the plot areas that are good by themselves. */
    goodAreas: set<int>
  )

  /** What the sixteen-category formula needs: a non-zero divisor for every
      category that has a multiplier. */
  ghost predicate DivisorsConfigured(t: Tables) {
    forall k :: k in t.mul.entries ==> k in t.div && t.div[k] != 0
  }

  /** `meaning_map.get(key, {}).get(val, default)`. */
  function Meaning(t: Tables, key: Category, val: int, default: string): (text: string)
    ensures key in t.meaningMap && val in t.meaningMap[key] ==> text == t.meaningMap[key][val]
    ensures !(key in t.meaningMap && val in t.meaningMap[key]) ==> text == default
  {
    if key in t.meaningMap && val in t.meaningMap[key] then t.meaningMap[key][val] else default
  }
}
