/**
 * The sort button embedded in the Apple-style and the enhanced report pages.
 * The page keeps the rows' original order; a click while the flag is set
 * reorders the rows by score, highest first (a stable sort, as JavaScript's
 * `Array.prototype.sort` is), and clears the flag; the next click restores
 * the original rows and sets the flag again.
 */
module TableSort {
  import opened Sorting

  class SortToggle<T> {
    /** `originalRows`, captured when the page loads. */
    const original: seq<T>
    /** `parseFloat(row.dataset.score)`. */
    const score: T -> int
    /** `isDescending`: the next click sorts. */
    var isDescending: bool
    /** The rows of the table body, in display order. */
    var rows: seq<T>

    /** While the flag is set the rows are in their original order; otherwise they are sorted by score. */
    ghost predicate Valid()
      reads this
    {
      (isDescending ==> rows == original) &&
      (!isDescending ==> rows == SortBy(original, Negate(score)))
    }

    constructor (initial: seq<T>, score: T -> int)
      ensures Valid() && isDescending && rows == initial && original == initial && this.score == score
    {
      original := initial;
      this.score := score;
      isDescending := true;
      rows := initial;
    }

    /** The click handler. */
    method Click()
      requires Valid()
      modifies this
      ensures Valid()
      ensures isDescending == !old(isDescending)
      ensures old(isDescending) ==> rows == SortBy(old(rows), Negate(score))
      ensures !old(isDescending) ==> rows == original
    {
      if isDescending {
        rows := SortBy(rows, Negate(score));
        isDescending := false;
      } else {
        rows := original;
        isDescending := true;
      }
    }

    /** After the sorting click the rows are the same rows, by non-increasing score. */
    lemma SortedState()
      requires Valid() && !isDescending
      ensures multiset(rows) == multiset(original)
      ensures forall i, j :: 0 <= i < j < |rows| ==> score(rows[i]) >= score(rows[j])
    {
      SortBySorted(original, Negate(score));
      SortedByNegate(rows, score);
    }

    /** Two clicks leave the table as it was. */
    method ClickTwice()
      requires Valid()
      modifies this
      ensures Valid()
      ensures isDescending == old(isDescending) && rows == old(rows)
    {
      Click();
      Click();
    }
  }
}
