/**
 The two analytical queries of `DataHelper`: `query_string`, filtered by
 market, category, sub-category and optionally by the active-product flag,
 and `query_string_all`, restricted to a fixed list of vendor names. Each is
 its exact f-string template filled in from the helper and the arguments.
 */
module MarketQueries {
  import opened Outcomes
  import opened SqlTemplate
  import DataHelper

  /** `query_string` up to its active-flag hole (data_helper.py:165-180). */
  const FilteredHead: seq<Piece> :=
    [
      Lit("\n            with this_geo as (\n                select  dg.geography_id,\n                        market_name,\n                        channel_name,\n                        retailer_name,\n                        format_name,\n                        segment_name\n                from "),
      TableRef("dim_geography"),
      Lit(" dg\n                where market_name = '"),
      MarketName,
      Lit("' and retailer_status_flag\n            ),this_category as (\n                select dp.*\n                from "),
      TableRef("dim_product"),
      Lit(" dp\n                join "),
      TableRef("hier_product"),
      Lit(" hp on dp.product_id = hp.product_id\n                where category_name = '"),
      CategoryName,
      Lit("'\n                and sub_category_name = '"),
      SubCategoryName,
      Lit("'\n                ")
    ]

  /** `query_string` after its active-flag hole (data_helper.py:182-208). */
  const FilteredTail: seq<Piece> :=
    [
      Lit("\n            )\n            select this_category.*,\n                   this_geo.geography_id,\n                   this_geo.channel_name,\n                   this_geo.retailer_name,\n                   this_geo.format_name,\n                   this_geo.segment_name,\n                   time_period_start,\n                   time_period_end,\n                   nrf_calendar_date,\n                   period,\n                   sales_revenue,\n                   sales_units,\n                   sales_revenue_incremental,\n                   sales_units_incremental,\n                   acv_weighted_distribution,\n                   price_per_unit,\n                   price_per_unit_promo,\n                   price_per_unit_non_promo,\n                   price_effective_price,\n                   cost_amount\n            from "),
      TableRef("fact_sales"),
      Lit(" fs\n            inner join this_category on this_category.product_id = fs.product_id\n            inner join this_geo on this_geo.geography_id = fs.geography_id\n            inner join "),
      TableRef("dim_time"),
      Lit(" dt on fs.time_id = dt.time_id\n            where this_geo.market_name = this_category.market_name\n            ")
    ]

  /** `query_string_all` (data_helper.py:217-259). */
  const AllTemplate: seq<Piece> :=
    [
      Lit("\n            with this_geo as (\n                select  dg.geography_id,\n                        market_name,\n                        channel_name,\n                        retailer_name,\n                        format_name,\n                        segment_name\n                from "),
      TableRef("dim_geography"),
      Lit(" dg\n                join "),
      TableRef("hier_geography"),
      Lit(" hg on dg.geography_id = hg.geography_id\n                where retailer_status_flag\n            ),this_category as (\n                select dp.*\n                from "),
      TableRef("dim_product"),
      Lit(" dp\n                join "),
      TableRef("hier_product"),
      Lit(" hp on dp.product_id = hp.product_id\n            )\n            select this_category.*,\n                   this_geo.geography_id,\n                   this_geo.channel_name,\n                   this_geo.retailer_name,\n                   this_geo.format_name,\n                   this_geo.segment_name,\n                   time_period_start,\n                   time_period_end,\n                   sales_revenue,\n                   sales_units,\n                   nrf_calendar_date,\n                   sales_revenue_incremental,\n                   sales_units_incremental,\n                   acv_weighted_distribution,\n                   price_per_unit,\n                   price_per_unit_promo,\n                   price_per_unit_non_promo,\n                   price_effective_price,\n                   cost_amount,\n                   dt.period\n            from "),
      TableRef("fact_sales"),
      Lit(" fs\n            inner join this_category on this_category.product_id = fs.product_id\n            inner join this_geo on this_geo.geography_id = fs.geography_id\n            inner join "),
      TableRef("dim_time"),
      Lit(" dt on fs.time_id = dt.time_id\n            where this_geo.market_name = this_category.market_name\n            and vendor_name in ('GLAXOSMITHKLINE','GSK','GLAXOSMITHKLINE CONSUMER HEALTHCARE','GLAXOSMITHKL.C.H.','GSK (GREAT BRITAIN)')\n            ")
    ]

  /** The `query_string` template: one active-flag hole between head and tail. */
  const MarketCategoryTemplate: seq<Piece> := FilteredHead + [ActiveFilter] + FilteredTail

  /** `f"{x}"` of a `str` or `None`. */
  function PyStr(o: Option<string>): (r: string)
    ensures o.Some? ==> r == o.value
    ensures o.None? ==> r == "None"
  {
    match o
    case Some(s) => s
    case None => "None"
  }

  function QueryBindings(h: DataHelper.Helper, market: Option<string>, category: Option<string>,
                         subCategory: Option<string>, onlyActive: bool): Bindings
  {
    Bindings(PyStr(h.schema), PyStr(market), PyStr(category), PyStr(subCategory), onlyActive)
  }

  /** `query_string`; its `only_active` defaults to True. */
  function QueryString(h: DataHelper.Helper, market: Option<string>, category: Option<string>,
                       subCategory: Option<string>, onlyActive: bool := true): string
  {
    Render(MarketCategoryTemplate, QueryBindings(h, market, category, subCategory, onlyActive))
  }

  /** Where the active predicate goes in the `query_string` text. */
  function ActiveFilterOffset(h: DataHelper.Helper, market: Option<string>, category: Option<string>,
                              subCategory: Option<string>): nat
  {
    |Render(FilteredHead, QueryBindings(h, market, category, subCategory, false))|
  }

  lemma FlagOnlyOnce()
    ensures ActiveFilter !in FilteredHead && ActiveFilter !in FilteredTail
  {
  }

  /** Switching `only_active` on inserts exactly `and product_status_flag` at one
      fixed place and changes nothing else in the query. */
  lemma OnlyActiveToggle(h: DataHelper.Helper, market: Option<string>, category: Option<string>,
                         subCategory: Option<string>)
    ensures var off := QueryString(h, market, category, subCategory, false);
            var on := QueryString(h, market, category, subCategory, true);
            var k := ActiveFilterOffset(h, market, category, subCategory);
            k <= |off| && on == off[..k] + ActivePredicate + off[k..]
  {
    var b := QueryBindings(h, market, category, subCategory, false);
    FlagOnlyOnce();
    FlagToggle(FilteredHead, FilteredTail, b);
    assert QueryString(h, market, category, subCategory, false) == Render(FilteredHead + [ActiveFilter] + FilteredTail, b.(onlyActive := false));
    assert QueryString(h, market, category, subCategory, true) == Render(FilteredHead + [ActiveFilter] + FilteredTail, b.(onlyActive := true));
  }

  /** `load_market_category`: the query it reads, with every filter defaulting to
      `None` and `only_active` defaulting to False. */
  function LoadMarketCategoryQuery(h: DataHelper.Helper, market: Option<string> := None,
                                   category: Option<string> := None,
                                   subCategory: Option<string> := None,
                                   onlyActive: bool := false): (q: string)
    ensures onlyActive ==> q == QueryString(h, market, category, subCategory)
    ensures var k := ActiveFilterOffset(h, market, category, subCategory);
            !onlyActive ==> k <= |q| && QueryString(h, market, category, subCategory) == q[..k] + ActivePredicate + q[k..]
  {
    if onlyActive then QueryString(h, market, category, subCategory)
    else
      OnlyActiveToggle(h, market, category, subCategory);
      QueryString(h, market, category, subCategory, false)
  }

  /** The two defaults disagree: by default `query_string` carries the active
      predicate and `load_market_category` does not. */
  lemma DefaultsDisagree(h: DataHelper.Helper, market: Option<string>, category: Option<string>,
                         subCategory: Option<string>)
    ensures |QueryString(h, market, category, subCategory)|
            == |LoadMarketCategoryQuery(h, market, category, subCategory)| + |ActivePredicate|
    ensures QueryString(h, market, category, subCategory)
            != LoadMarketCategoryQuery(h, market, category, subCategory)
  {
    OnlyActiveToggle(h, market, category, subCategory);
  }

  lemma AllTemplateHasOnlyTables()
    ensures forall p | p in AllTemplate :: p.Lit? || p.TableRef?
  {
  }

  /** `query_string_all`: only the schema is spliced in, so the market,
      category and flag bindings play no part. */
  function QueryStringAll(h: DataHelper.Helper): (q: string)
    ensures forall b: Bindings | b.schema == PyStr(h.schema) :: q == Render(AllTemplate, b)
  {
    var b0 := Bindings(PyStr(h.schema), "", "", "", false);
    AllTemplateHasOnlyTables();
    assert forall b: Bindings | b.schema == PyStr(h.schema) :: Render(AllTemplate, b) == Render(AllTemplate, b0) by {
      forall b: Bindings | b.schema == PyStr(h.schema) ensures Render(AllTemplate, b) == Render(AllTemplate, b0) {
        SchemaOnly(AllTemplate, b0, b);
      }
    }
    Render(AllTemplate, b0)
  }
}
