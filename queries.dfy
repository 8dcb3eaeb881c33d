/** The SQL text the connectors and the repair jobs send. The two
    collaborations connectors send the same statements, and so do the two
    posts connectors. */
module Queries {
  import opened Wrappers
  import opened Sql
  import PyText

  /** `.replace('\n','').replace('\t','')`. */
  function Clean(s: string): (r: string)
    ensures '\n' !in r && '\t' !in r
  {
    PyText.Remove(PyText.Remove(s, '\n'), '\t')
  }

  lemma CleanConcat(a: string, b: string)
    ensures Clean(a + b) == Clean(a) + Clean(b)
  {
    PyText.RemoveConcat(a, b, '\n');
    PyText.RemoveConcat(PyText.Remove(a, '\n'), PyText.Remove(b, '\n'), '\t');
  }

  lemma NoBraceNoPlaceholder(s: string)
    requires '{' !in s
    ensures !PyText.HasPlaceholder(s)
  {
    forall i | 0 <= i < |s| - 1 ensures s[i] != '{' {
      assert s[i] in s;
    }
  }

  // ----- collaborations database -----

  const AdvertiserIdsSql := "SELECT advertiser_ids FROM " + "brand_advertisers WHERE brand_id=%s;"
  const BrandIdSql := "SELECT brand_id FROM collaborations where id=%s;"
  const BrandByAdvertiserPrefix :=
    "SELECT `brand_id` FROM " + "`collaborations`.`brand_advertisers` " + "WHERE `advertiser_ids` LIKE '%"
  const BrandByAdvertiserSuffix := "%';"
  const BrandByAdvertiserSql := BrandByAdvertiserPrefix + "{}" + BrandByAdvertiserSuffix
  const CollaborationIdSql := "SELECT collaboration_id as id FROM obligations WHERE id = %s;"
  const ObligationIdSql := "SELECT id FROM obligations WHERE post_id=%s;"
  const SaveRstyleLinksSql := "INSERT INTO obligation_rstyle_links (obligation_id, rstyle_links) VALUES (%s, %s);"
  const UpdateCampaignSql := "UPDATE reporting_start_time, reporting_end_time where campaign_id in %s VALUES (%s, %s);;"

  /** `cursor.execute(sql.format(brand_id))` in `get_advertiser_ids`. */
  function AdvertiserIds(brandId: Value): (r: Statement)
    ensures r.params.None?
  {
    Statement(PyText.FormatOne(AdvertiserIdsSql, Str(brandId)), None)
  }

  /** The template has no braces and nothing is bound, so the brand id never
      reaches the database: every brand id gives the same statement. */
  lemma AdvertiserIdsIgnoresBrand(brandId: Value)
    ensures AdvertiserIds(brandId) == Statement(AdvertiserIdsSql, None)
  {
    AdvertiserIdsSelectHasNoBraces();
    AdvertiserIdsWhereHasNoBraces();
    PyText.FormatOneNoBraces(AdvertiserIdsSql, Str(brandId));
  }

  lemma AdvertiserIdsSelectHasNoBraces()
    ensures '{' !in "SELECT advertiser_ids FROM " && '}' !in "SELECT advertiser_ids FROM "
  {
  }

  lemma AdvertiserIdsWhereHasNoBraces()
    ensures '{' !in "brand_advertisers WHERE brand_id=%s;" && '}' !in "brand_advertisers WHERE brand_id=%s;"
  {
  }

  /** `cursor.execute(sql.format(advertiser_id))` in
      `get_brand_id_by_advertiser_id`. */
  function BrandByAdvertiser(advertiserId: Value): (r: Statement)
    ensures r.params.None?
  {
    Statement(PyText.FormatOne(BrandByAdvertiserSql, Str(advertiserId)), None)
  }

  /** The advertiser id's text lands between the two `%` wildcards of the
      `LIKE` pattern, unescaped. */
  lemma BrandByAdvertiserSplices(advertiserId: Value)
    ensures BrandByAdvertiser(advertiserId).sql
         == BrandByAdvertiserPrefix + Str(advertiserId) + BrandByAdvertiserSuffix
    ensures BrandByAdvertiser(advertiserId).params.None?
  {
    BrandByAdvertiserPrefixHasNoPlaceholder();
    PyText.FormatOneSplices(BrandByAdvertiserPrefix, BrandByAdvertiserSuffix, Str(advertiserId));
  }

  lemma BrandByAdvertiserPrefixHasNoPlaceholder()
    ensures !PyText.HasPlaceholder(BrandByAdvertiserPrefix)
  {
    BrandByAdvertiserSelectHasNoBrace();
    BrandByAdvertiserWhereHasNoBrace();
    NoBraceNoPlaceholder(BrandByAdvertiserPrefix);
  }

  lemma BrandByAdvertiserSelectHasNoBrace()
    ensures '{' !in "SELECT `brand_id` FROM " + "`collaborations`.`brand_advertisers` "
  {
    assert '{' !in "SELECT `brand_id` FROM ";
    assert '{' !in "`collaborations`.`brand_advertisers` ";
  }

  lemma BrandByAdvertiserWhereHasNoBrace()
    ensures '{' !in "WHERE `advertiser_ids` LIKE '%"
  {
  }

  /** `cursor.execute(sql, value)` for a statement with one `%s`: the value
      travels beside the text, which is sent as written. */
  function BindOne(sql: string, v: Value): (r: Statement)
    ensures r.sql == sql && r.params == Some(One(v))
  {
    Statement(sql, Some(One(v)))
  }

  // ----- posts database -----

  const UpdateBatchPostsSql := "UPDATE reporting_start_time, reporting_end_time where post_id in %s;"
  const RstyleLinksSql := "SELECT url FROM rstyle_links where post_id=%s;"

  // ----- repair jobs -----

  const NullPostsRaw :=
    "\n    SELECT * FROM posts \n    WHERE status != 'DELETED' \n    AND reporting_end_time IS NULL "
    + "\n    AND (channel != 'LTK' AND channel != 'BLOG' AND channel != 'NO_CHANNEL') "
    + "\n    AND created_at >= '2020-09-01 00:00:00'\n  "

  /** The posts whose reporting times are NULL, as sent. */
  const NullPostsSql := Clean(NullPostsRaw)

  const PostsEndingInYear1Sql := "SELECT * FROM posts WHERE reporting_end_time LIKE '%0001%';"

  const JoinSelect := "\n    SELECT campaigns.*, " + "obligations.post_id as post_id "
  const JoinFrom := "\n    FROM obligations " + "JOIN campaigns " + "ON campaigns.id = " + "obligations.campaign_id "
  const JoinWhere := "\n    WHERE obligations.post_id IN ("
  const JoinPrefix := JoinSelect + JoinFrom + JoinWhere
  const JoinSuffix := ")\n  "
  const JoinTemplate := JoinPrefix + "{}" + JoinSuffix

  lemma JoinSelectHasNoBrace()
    ensures '{' !in JoinSelect
  {
    assert '{' !in "\n    SELECT campaigns.*, ";
    assert '{' !in "obligations.post_id as post_id ";
  }

  lemma JoinFromHasNoBrace()
    ensures '{' !in JoinFrom
  {
    assert '{' !in "\n    FROM obligations ";
    assert '{' !in "JOIN campaigns ";
    assert '{' !in "ON campaigns.id = ";
    assert '{' !in "obligations.campaign_id ";
  }

  lemma JoinPrefixHasNoPlaceholder()
    ensures !PyText.HasPlaceholder(JoinPrefix)
  {
    JoinSelectHasNoBrace();
    JoinFromHasNoBrace();
    assert '{' !in JoinWhere;
    NoBraceNoPlaceholder(JoinPrefix);
  }

  /** The obligations-join-campaigns query for a text of post ids. */
  function JoinQuery(postIds: string): (r: string)
    ensures '\n' !in r && '\t' !in r
  {
    Clean(PyText.FormatOne(JoinTemplate, postIds))
  }

  /** The id text goes inside `IN (...)`; line breaks and tabs are removed
      from all of it, the ids included. */
  lemma JoinQuerySplices(postIds: string)
    ensures JoinQuery(postIds) == Clean(JoinPrefix) + Clean(postIds) + Clean(JoinSuffix)
  {
    JoinPrefixHasNoPlaceholder();
    PyText.FormatOneSplices(JoinPrefix, JoinSuffix, postIds);
    CleanConcat(JoinPrefix + postIds, JoinSuffix);
    CleanConcat(JoinPrefix, postIds);
  }

  /** An id text without line breaks or tabs reaches the query unchanged. */
  lemma JoinQueryKeepsIds(postIds: string)
    requires '\n' !in postIds && '\t' !in postIds
    ensures JoinQuery(postIds) == Clean(JoinPrefix) + postIds + Clean(JoinSuffix)
  {
    JoinQuerySplices(postIds);
    PyText.RemoveAbsent(postIds, '\n');
    PyText.RemoveAbsent(postIds, '\t');
  }
}
