/** The transaction list: the case-insensitive search and type filter, the
    colour badge of each category, and the message of the empty state. */
module TransactionList {
  import opened Base
  import opened Table
  import opened TransactionService

  /** The type selector: "all", or one kind. */
  datatype TypeFilter = AllTypes | OnlyKind(kind: Kind)

  /** `toLowerCase` on one character (letters A to Z). */
  function LowerChar(c: char): char {
    if 'A' <= c <= 'Z' then (c as int + 32) as char else c
  }

  /** `toLowerCase`: same length, each letter lowered. */
  function Lower(s: string): (r: string)
    ensures |r| == |s|
    ensures forall i :: 0 <= i < |s| ==> r[i] == LowerChar(s[i])
  {
    seq(|s|, i requires 0 <= i < |s| => LowerChar(s[i]))
  }

  /** Lowering twice is lowering once, so a lowered term matches itself. */
  lemma LowerIdempotent(s: string)
    ensures Lower(Lower(s)) == Lower(s)
  {
    assert forall i :: 0 <= i < |s| ==> LowerChar(LowerChar(s[i])) == LowerChar(s[i]);
  }

  /** `s.includes(sub)`: `sub` occurs in `s` starting at its first
      character or later. */
  function Includes(s: string, sub: string): bool
    decreases |s|
  {
    if |sub| > |s| then false
    else s[..|sub|] == sub || (s != [] && Includes(s[1..], sub))
  }

  /** `sub` occurs in `s` at position `i`. */
  predicate OccursAt(s: string, sub: string, i: int) {
    0 <= i && i + |sub| <= |s| && s[i..i + |sub|] == sub
  }

  /** `Includes` agrees with the definition by position: `sub` occurs in
      `s` at some position. */
  lemma {:induction false} IncludesIff(s: string, sub: string)
    ensures Includes(s, sub) <==> exists i :: OccursAt(s, sub, i)
    decreases |s|
  {
    if |sub| > |s| {
    } else if s[..|sub|] == sub {
      assert OccursAt(s, sub, 0);
    } else {
      assert s != [];
      IncludesIff(s[1..], sub);
      if Includes(s[1..], sub) {
        var i :| OccursAt(s[1..], sub, i);
        assert s[i + 1..i + 1 + |sub|] == s[1..][i..i + |sub|];
        assert OccursAt(s, sub, i + 1);
      }
      if exists i :: OccursAt(s, sub, i) {
        var i :| OccursAt(s, sub, i);
        assert i != 0;
        assert s[1..][i - 1..i - 1 + |sub|] == s[i..i + |sub|];
        assert OccursAt(s[1..], sub, i - 1);
      }
    }
  }

  /** Every string includes the empty string. */
  lemma IncludesEmpty(s: string)
    ensures Includes(s, "")
  {
  }

  /** The `filteredTransactions` test: description or category includes
      the search term, ignoring case, and the type filter admits the type. */
  function Shown(searchTerm: string, selected: TypeFilter): Transaction -> bool {
    (t: Transaction) =>
      (Includes(Lower(t.description), Lower(searchTerm)) || Includes(Lower(t.category), Lower(searchTerm))) &&
      (selected == AllTypes || t.kind == selected.kind)
  }

  /** `filteredTransactions`. */
  function Visible(txs: seq<Transaction>, searchTerm: string, selected: TypeFilter): seq<Transaction> {
    Filter(txs, Shown(searchTerm, selected))
  }

  /** A transaction is listed exactly when it is in the input and passes
      the search and the type filter; the list keeps the input's order. */
  lemma VisibleExact(txs: seq<Transaction>, searchTerm: string, selected: TypeFilter)
    ensures forall i :: 0 <= i < |txs| ==> (txs[i] in Visible(txs, searchTerm, selected) <==> Shown(searchTerm, selected)(txs[i]))
    ensures Subsequence(Visible(txs, searchTerm, selected), txs)
  {
    var r := Visible(txs, searchTerm, selected);
    forall i | 0 <= i < |txs| && txs[i] in r
      ensures Shown(searchTerm, selected)(txs[i])
    {
      var j :| 0 <= j < |r| && r[j] == txs[i];
    }
    FilterIsSubsequence(txs, Shown(searchTerm, selected));
  }

  /** The search ignores case: a term and its lower-case form list the
      same transactions. */
  lemma SearchIgnoresCase(txs: seq<Transaction>, searchTerm: string, selected: TypeFilter)
    ensures Visible(txs, Lower(searchTerm), selected) == Visible(txs, searchTerm, selected)
  {
    LowerIdempotent(searchTerm);
    assert Shown(Lower(searchTerm), selected) == Shown(searchTerm, selected);
  }

  /** No search term and the "all" filter list every transaction. */
  lemma EmptySearchShowsAll(txs: seq<Transaction>)
    ensures Visible(txs, "", AllTypes) == txs
  {
    forall i | 0 <= i < |txs|
      ensures Shown("", AllTypes)(txs[i])
    {
      IncludesEmpty(Lower(txs[i].description));
    }
    FilterKeepsAll(txs, Shown("", AllTypes));
  }

  /** The badge colours of the known categories. */
  const CategoryColors: map<string, string> := map[
    "Food & Dining" := "#ef4444",
    "Transportation" := "#f59e0b",
    "Shopping" := "#8b5cf6",
    "Entertainment" := "#06b6d4",
    "Bills & Utilities" := "#64748b",
    "Health & Medical" := "#10b981",
    "Travel" := "#3b82f6",
    "Education" := "#f97316",
    "Personal Care" := "#ec4899",
    "Home & Garden" := "#84cc16",
    "Insurance" := "#6366f1",
    "Gifts & Donations" := "#d946ef",
    "Business" := "#0891b2",
    "Salary" := "#10b981",
    "Freelance" := "#059669",
    "Investment" := "#047857",
    "Other Income" := "#065f46",
    "Other Expenses" := "#71717a"
  ]

  const DefaultColor: string := "#64748b"

  predicate IsHexDigit(c: char) {
    '0' <= c <= '9' || 'a' <= c <= 'f'
  }

  /** `#` and six lower-case hexadecimal digits. */
  predicate IsHexColor(s: string) {
    |s| == 7 && s[0] == '#' && IsHexDigit(s[1]) && IsHexDigit(s[2]) && IsHexDigit(s[3]) &&
    IsHexDigit(s[4]) && IsHexDigit(s[5]) && IsHexDigit(s[6])
  }

  /** `getCategoryColor(category)`: the table's colour, or the slate
      default for a category the table does not know. */
  function CategoryColor(category: string): (r: string)
    ensures category in CategoryColors ==> r == CategoryColors[category]
    ensures category !in CategoryColors ==> r == DefaultColor
  {
    if category in CategoryColors then CategoryColors[category] else DefaultColor
  }

  /** Every badge colour, known category or not, is a well-formed
      `#rrggbb` colour. */
  lemma CategoryColorIsHex(category: string)
    ensures IsHexColor(CategoryColor(category))
  {
    assert forall k :: k in CategoryColors ==> IsHexColor(CategoryColors[k]);
  }

  /** The empty-state hint. */
  function EmptyMessage(searchTerm: string, selected: TypeFilter): (r: string)
    ensures r == "Try adjusting your search filters" <==> searchTerm != "" || selected != AllTypes
    ensures r == "Add your first transaction to get started" <==> searchTerm == "" && selected == AllTypes
  {
    if searchTerm != "" || selected != AllTypes then "Try adjusting your search filters"
    else "Add your first transaction to get started"
  }

  /** The hint invites a first transaction only when the filters show
      everything, that is only when there is no transaction at all. */
  lemma EmptyMessageIsHonest(txs: seq<Transaction>, searchTerm: string, selected: TypeFilter)
    requires Visible(txs, searchTerm, selected) == []
    ensures EmptyMessage(searchTerm, selected) == "Add your first transaction to get started" ==> txs == []
  {
    if searchTerm == "" && selected == AllTypes {
      EmptySearchShowsAll(txs);
    }
  }
}
