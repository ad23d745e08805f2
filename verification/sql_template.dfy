/**
 The analytical queries of `DataHelper` are f-strings: literal SQL text with
 holes for the schema-qualified table names, the three filter values and the
 active-product predicate. A template is that f-string as a list of pieces.
 */
module SqlTemplate {

  /** A piece of a query template: literal text or one of the f-string holes.
      `TableRef(t)` is `{self.schema}.t`, a table qualified by the helper's schema. */
  datatype Piece =
    | Lit(text: string)
    | TableRef(table: string)
    | MarketName
    | CategoryName
    | SubCategoryName
    | ActiveFilter

  /** The rendered values the holes are filled with. */
  datatype Bindings = Bindings(schema: string, market: string, category: string,
                               subCategory: string, onlyActive: bool)

  /** What `'and product_status_flag' * only_active` gives when `only_active` is true. */
  const ActivePredicate := "and product_status_flag"

  /** The text of one piece. */
  function Fill(p: Piece, b: Bindings): (r: string)
    ensures p.TableRef? ==> r == b.schema + "." + p.table
    ensures p == ActiveFilter ==> r == (if b.onlyActive then ActivePredicate else "")
  {
    match p
    case Lit(t) => t
    case TableRef(t) => b.schema + "." + t
    case MarketName => b.market
    case CategoryName => b.category
    case SubCategoryName => b.subCategory
    case ActiveFilter => if b.onlyActive then ActivePredicate else ""
  }

  /** The f-string's value: each piece filled in, in order. */
  function Render(t: seq<Piece>, b: Bindings): string
    decreases |t|
  {
    if |t| == 0 then "" else Fill(t[0], b) + Render(t[1..], b)
  }

  /** Rendering distributes over template concatenation. */
  lemma {:induction false} RenderConcat(s: seq<Piece>, t: seq<Piece>, b: Bindings)
    ensures Render(s + t, b) == Render(s, b) + Render(t, b)
    decreases |s|
  {
    if |s| == 0 {
      assert s + t == t;
    } else {
      assert (s + t)[1..] == s[1..] + t;
      RenderConcat(s[1..], t, b);
    }
  }

  /** A template without the active-flag hole does not depend on `only_active`. */
  lemma {:induction false} RenderIgnoresFlag(t: seq<Piece>, b: Bindings, onlyActive: bool)
    requires ActiveFilter !in t
    ensures Render(t, b) == Render(t, b.(onlyActive := onlyActive))
    decreases |t|
  {
    if |t| > 0 {
      assert t[0] in t;
      assert forall p | p in t[1..] :: p in t;
      RenderIgnoresFlag(t[1..], b, onlyActive);
    }
  }

  /** With one active-flag hole between a head and a tail, switching the flag on
      inserts exactly the predicate where the head's text ends. */
  lemma FlagToggle(head: seq<Piece>, tail: seq<Piece>, b: Bindings)
    requires ActiveFilter !in head && ActiveFilter !in tail
    ensures var t := head + [ActiveFilter] + tail;
            var off := Render(t, b.(onlyActive := false));
            var on := Render(t, b.(onlyActive := true));
            var k := |Render(head, b)|;
            k <= |off| && on == off[..k] + ActivePredicate + off[k..]
  {
    var t := head + [ActiveFilter] + tail;
    var bOff := b.(onlyActive := false);
    var bOn := b.(onlyActive := true);
    RenderConcat(head + [ActiveFilter], tail, bOff);
    RenderConcat(head, [ActiveFilter], bOff);
    RenderConcat(head + [ActiveFilter], tail, bOn);
    RenderConcat(head, [ActiveFilter], bOn);
    RenderIgnoresFlag(head, b, false);
    RenderIgnoresFlag(head, b, true);
    RenderIgnoresFlag(tail, b, false);
    RenderIgnoresFlag(tail, b, true);
    var h := Render(head, b);
    var r := Render(tail, b);
    assert Render([ActiveFilter], bOff) == "";
    assert Render([ActiveFilter], bOn) == ActivePredicate;
    var off := Render(t, bOff);
    assert off == h + r;
    assert off[..|h|] == h && off[|h|..] == r;
  }

  /** A template whose only holes are table references renders the same under
      any bindings that agree on the schema. */
  lemma {:induction false} SchemaOnly(t: seq<Piece>, b: Bindings, c: Bindings)
    requires forall p | p in t :: p.Lit? || p.TableRef?
    requires c.schema == b.schema
    ensures Render(t, c) == Render(t, b)
    decreases |t|
  {
    if |t| > 0 {
      assert t[0] in t;
      assert forall p | p in t[1..] :: p in t;
      SchemaOnly(t[1..], b, c);
    }
  }
}
