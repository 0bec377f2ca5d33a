/**
 * The values the expense tracker works with: the category list, the draft
 * the entry form edits, and the entries recorded from it.
 */
module Expenses {

  /** The categories offered by the form's select element. */
  const CATEGORIES: seq<string> :=
    ["Transportation", "Groceries", "Shopping", "Clothes", "Food", "Entertainment"]

  /** Budget the component starts with. */
  const DEFAULT_MONTHLY_BUDGET: int := 5000

  /**
   * The form's in-progress entry. Every field holds the raw text of its
   * control: `amount` is not parsed until the entry is recorded.
   */
  datatype Draft = Draft(category: string, amount: string, description: string)

  /** The draft the form starts with and returns to after each recorded entry. */
  const EMPTY_DRAFT: Draft := Draft("", "", "")

  /**
   * A recorded expense: the draft's category and description, the parsed
   * amount and the time of recording (an ISO-8601 string).
   */
  datatype Entry = Entry(category: string, amount: real, description: string, date: string)

  /** The three form controls, each bound to one draft field. */
  datatype Field = Category | Amount | Description

  /** The text a control shows: the draft field it is bound to. */
  function FieldOf(d: Draft, f: Field): string
  {
    match f
    case Category => d.category
    case Amount => d.amount
    case Description => d.description
  }

  /**
   * The draft after a control's change handler: the control's field holds
   * the new text and the other two fields are as they were.
   */
  function WithField(d: Draft, f: Field, value: string): (r: Draft)
    ensures FieldOf(r, f) == value
    ensures forall g :: g != f ==> FieldOf(r, g) == FieldOf(d, g)
  {
    match f
    case Category => d.(category := value)
    case Amount => d.(amount := value)
    case Description => d.(description := value)
  }

  /** Writing back the text a control already shows leaves the draft as it is. */
  lemma WithFieldOwnValue(d: Draft, f: Field)
    ensures WithField(d, f, FieldOf(d, f)) == d
  {
  }

  /** Of two successive changes to the same control, only the last one is kept. */
  lemma WithFieldLastWins(d: Draft, f: Field, a: string, b: string)
    ensures WithField(WithField(d, f, a), f, b) == WithField(d, f, b)
  {
  }

  /** Changes to two different controls do not interfere. */
  lemma WithFieldCommutes(d: Draft, f: Field, g: Field, a: string, b: string)
    requires f != g
    ensures WithField(WithField(d, f, a), g, b) == WithField(WithField(d, g, b), f, a)
  {
  }
}
