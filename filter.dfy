/** The filter panel of the product list (`ProductList/src/components/Filter/Filter.tsx`): the
    selected category and the two price inputs, and the filter object each change emits. */
module Filter {
  import opened Base
  import opened Text
  import opened ProductTypes

  /** `Number(text)` for the integer forms: blank text is 0, an optionally signed run of digits
      between spaces is that integer, anything else is `NaN`. */
  function ToNumber(s: string): (n: Num)
    ensures AllSpace(s) ==> n == Finite(0)
  {
    var t := Trim(s);
    if t == [] then Finite(0) else Numeral(t)
  }

  /** The value of a trimmed, non-empty numeral. */
  function Numeral(t: string): Num
    requires t != []
  {
    if t[0] == '-' && |t| > 1 && AllDigits(t[1..]) then
      var v: int := DigitsValue(t[1..]);
      Finite(-v)
    else if t[0] == '+' && |t| > 1 && AllDigits(t[1..]) then Finite(DigitsValue(t[1..]))
    else if AllDigits(t) then Finite(DigitsValue(t))
    else NaN
  }

  /** The decimal form of an integer reads back as that integer. */
  lemma ToNumberOfIntToString(i: int)
    ensures ToNumber(IntToString(i)) == Finite(i)
  {
    IntToStringTrimmed(i);
    NumeralOfIntToString(i);
  }

  lemma IntToStringTrimmed(i: int)
    ensures Trim(IntToString(i)) == IntToString(i)
  {
    var n: nat := if i < 0 then -i else i;
    var d := NatToString(n);
    var s := IntToString(i);
    assert s[|s| - 1] == d[|d| - 1];
    assert IsDigit(d[0]) && IsDigit(d[|d| - 1]);
    assert !IsSpace(s[0]);
    TrimOfTrimmed(s);
  }

  lemma NumeralOfIntToString(i: int)
    ensures Numeral(IntToString(i)) == Finite(i)
  {
    var n: nat := if i < 0 then -i else i;
    var d := NatToString(n);
    NatToStringValue(n);
    var s := IntToString(i);
    if i < 0 {
      assert s[1..] == d;
    } else {
      assert s == d;
    }
  }

  /** Under the integer-only reading of `Number` modelled here, a price text with a lower-case
      letter in it is `NaN`. (`Number` itself reads `1e3`, `0x1f` and `Infinity` as numbers.) */
  lemma LettersAreNaN(s: string, k: nat)
    requires k < |s| && 'a' <= s[k] <= 'z'
    ensures ToNumber(s) == NaN
  {
    var m := NonSpaceInTrim(s, k);
    LetterNumeral(Trim(s), m);
  }

  /** A character that is not white space survives trimming. */
  lemma NonSpaceInTrim(s: string, k: nat) returns (m: nat)
    requires k < |s| && !IsSpace(s[k])
    ensures m < |Trim(s)| && Trim(s)[m] == s[k]
  {
    var t := Trim(s);
    var i, j := TrimSlice(s);
    assert i <= k by {
      forall n | 0 <= n < i ensures IsSpace(s[n]) {
        assert s[..i][n] == s[n];
      }
    }
    assert k < j by {
      forall n | j <= n < |s| ensures IsSpace(s[n]) {
        assert s[j..][n - j] == s[n];
      }
    }
    m := k - i;
  }

  lemma LetterNumeral(t: string, k: nat)
    requires k < |t| && 'a' <= t[k] <= 'z'
    ensures Numeral(t) == NaN
  {
    assert !IsDigit(t[k]) && t[k] != '-' && t[k] != '+';
    if k > 0 {
      assert t[1..][k - 1] == t[k];
    }
  }

  /** The filter `applyFilters` emits, field by field. */
  function FiltersFor(category: string, min: string, max: string): (f: FilterParams)
    ensures f.category.Some? <==> category != []
    ensures f.category.Some? ==> f.category.value == category
    ensures f.minPrice.Some? <==> min != []
    ensures f.minPrice.Some? ==> f.minPrice.value == ToNumber(min)
    ensures f.maxPrice.Some? <==> max != []
    ensures f.maxPrice.Some? ==> f.maxPrice.value == ToNumber(max)
  {
    FilterParams(
      if category != [] then Some(category) else None,
      if min != [] then Some(ToNumber(min)) else None,
      if max != [] then Some(ToNumber(max)) else None)
  }

  /** Empty inputs everywhere give the empty filter `{}`. */
  lemma EmptyInputsNoFilter()
    ensures FiltersFor("", "", "") == NoFilter
  {
  }

  /** `applyFilters`: starts from `{}` and sets each field whose input is non-empty. */
  method ApplyFilters(category: string, min: string, max: string) returns (f: FilterParams)
    ensures f == FiltersFor(category, min, max)
  {
    f := NoFilter;
    if category != [] {
      f := f.(category := Some(category));
    }
    if min != [] {
      f := f.(minPrice := Some(ToNumber(min)));
    }
    if max != [] {
      f := f.(maxPrice := Some(ToNumber(max)));
    }
  }

  /** The category after a click: the clicked one, or none when it was already selected. */
  function Toggle(clicked: string, selected: string): (r: string)
    ensures clicked == selected ==> r == []
    ensures clicked != selected ==> r == clicked
  {
    if clicked == selected then "" else clicked
  }

  /** Clicking the same category twice returns to all categories, unless it was the one
      selected to begin with, in which case the two clicks reselect it. */
  lemma ToggleTwice(clicked: string, selected: string)
    ensures Toggle(clicked, Toggle(clicked, selected)) == if clicked == selected then clicked else []
  {
  }

  /** The button "全部" (all) always clears the category. */
  lemma AllButtonClears(selected: string)
    ensures Toggle("", selected) == []
  {
  }

  /** The panel's state and the filters handed to `onFilterChange`, oldest first. */
  class FilterPanel {
    var selectedCategory: string
    var minPrice: string
    var maxPrice: string
    var emitted: seq<FilterParams>

    /** The last filter handed on matches the inputs. */
    predicate Valid()
      reads this
    {
      emitted == [] || emitted[|emitted| - 1] == FiltersFor(selectedCategory, minPrice, maxPrice)
    }

    constructor()
      ensures selectedCategory == [] && minPrice == [] && maxPrice == [] && emitted == []
      ensures Valid()
    {
      selectedCategory := "";
      minPrice := "";
      maxPrice := "";
      emitted := [];
    }

    /** `handleCategoryChange`. */
    method HandleCategoryChange(category: string)
      modifies this
      ensures selectedCategory == Toggle(category, old(selectedCategory))
      ensures minPrice == old(minPrice) && maxPrice == old(maxPrice)
      ensures emitted == old(emitted) + [FiltersFor(selectedCategory, minPrice, maxPrice)]
      ensures Valid()
    {
      var newCategory := Toggle(category, selectedCategory);
      selectedCategory := newCategory;
      var f := ApplyFilters(newCategory, minPrice, maxPrice);
      emitted := emitted + [f];
    }

    /** `handlePriceChange('min', value)` or, with `isMin` false, `('max', value)`. */
    method HandlePriceChange(isMin: bool, value: string)
      modifies this
      ensures selectedCategory == old(selectedCategory)
      ensures isMin ==> minPrice == value && maxPrice == old(maxPrice)
      ensures !isMin ==> maxPrice == value && minPrice == old(minPrice)
      ensures emitted == old(emitted) + [FiltersFor(selectedCategory, minPrice, maxPrice)]
      ensures Valid()
    {
      if isMin {
        minPrice := value;
        var f := ApplyFilters(selectedCategory, value, maxPrice);
        emitted := emitted + [f];
      } else {
        maxPrice := value;
        var f := ApplyFilters(selectedCategory, minPrice, value);
        emitted := emitted + [f];
      }
    }

    /** `resetFilters`: clears the three inputs and hands on `{}`. */
    method ResetFilters()
      modifies this
      ensures selectedCategory == [] && minPrice == [] && maxPrice == []
      ensures emitted == old(emitted) + [NoFilter]
      ensures Valid()
    {
      selectedCategory := "";
      minPrice := "";
      maxPrice := "";
      emitted := emitted + [NoFilter];
    }
  }
}
