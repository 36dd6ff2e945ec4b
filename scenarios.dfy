/** The builders as the example programs of the repository drive them
    (examples/deploy/main.go and examples/simple/main.go): each method runs
    the same calls and states the exact command that comes out. */
module Scenarios {
  import opened Strings
  import opened Args
  import Query
  import Create
  import Search

  /** The terms index of the deploy example: a HASH index over keys with the
      prefix `drd:`, a text field, two tag fields split on commas and a
      sortable numeric field. */
  method DeployTermsIndex(indexName: string) returns (r: seq<Arg>)
    ensures r == [S("FT.CREATE"), S(indexName), S("ON"), S("HASH")]
                 + [S("PREFIX"), I(1), S("drd:")]
                 + ([S("SCHEMA")] + TermsFields())
  {
    var indexCreator := new Create.FtCreate(indexName);
    indexCreator.AddDataType(Create.HASH);
    indexCreator.AddPrefix(["drd:"]);
    var schemaTextOpt := indexCreator.AddSchemaTextOption(Finite(0.0), false, false, "");
    indexCreator.AddSchema(Create.FieldTypeText, "uid", "", false, schemaTextOpt);
    var schemaTagOpt := indexCreator.AddSchemaTagOption(false, ",");
    indexCreator.AddSchema(Create.FieldTypeTag, "cats", "", false, schemaTagOpt);
    indexCreator.AddSchema(Create.FieldTypeTag, "tags", "", false, schemaTagOpt);
    var schemaNumericOpt := indexCreator.AddSchemaNumericOption(false);
    indexCreator.AddSchema(Create.FieldTypeNumeric, "updated", "", true, schemaNumericOpt);
    assert indexCreator.schema == TermsSchema();
    r := indexCreator.Serialize();
    TermsIndexOptions(indexName, indexCreator.Config());
    TermsIndexArgs(indexName, indexCreator.Config());
  }

  /** The four schema fields of the terms index. */
  function TermsSchema(): seq<Create.FtSchema> {
    var text := Create.FtSchemaOption(false, false, false, "", Finite(0.0), "", false);
    var tag := Create.FtSchemaOption(false, false, false, "", Finite(0.0), ",", false);
    [Create.FtSchema("uid", "", "TEXT", false, text),
     Create.FtSchema("cats", "", "TAG", false, tag),
     Create.FtSchema("tags", "", "TAG", false, tag),
     Create.FtSchema("updated", "", "NUMERIC", true, text)]
  }

  lemma TermsIndexArgs(indexName: string, c: Create.CreateConfig)
    requires Create.HeaderArgs(c) == [S("FT.CREATE"), S(indexName), S("ON"), S("HASH")]
    requires Create.SourceArgs(c) == [S("PREFIX"), I(1), S("drd:")]
    requires Create.LanguageArgs(c) == [] && Create.FlagArgs(c) == [] && Create.StopWordsArgs(c) == []
    requires c.schema == TermsSchema()
    ensures Create.CreateArgs(c)
         == [S("FT.CREATE"), S(indexName), S("ON"), S("HASH")]
            + [S("PREFIX"), I(1), S("drd:")]
            + ([S("SCHEMA")] + TermsFields())
  {
    var h := Create.HeaderArgs(c);
    var so := Create.SourceArgs(c);
    var sc := Create.SchemaArgs(c);
    TermsFieldsArgs();
    assert sc == [S("SCHEMA")] + TermsFields();
    DropEmpty(h, so, Create.LanguageArgs(c), Create.FlagArgs(c), Create.StopWordsArgs(c), sc);
  }

  lemma DropEmpty(h: seq<Arg>, so: seq<Arg>, la: seq<Arg>, fl: seq<Arg>, st: seq<Arg>, sc: seq<Arg>)
    requires la == [] && fl == [] && st == []
    ensures h + so + la + fl + st + sc == h + so + sc
  {
  }

  /** The terms index sets PREFIX and nothing else before SCHEMA. */
  lemma TermsIndexOptions(indexName: string, c: Create.CreateConfig)
    requires c == Create.NewConfig(indexName).(dataType := "HASH", prefix := ["drd:"], schema := TermsSchema())
    ensures Create.HeaderArgs(c) == [S("FT.CREATE"), S(indexName), S("ON"), S("HASH")]
    ensures Create.SourceArgs(c) == [S("PREFIX"), I(1), S("drd:")]
    ensures Create.LanguageArgs(c) == [] && Create.FlagArgs(c) == [] && Create.StopWordsArgs(c) == []
  {
    assert Create.SourceArgs(c) == [S("PREFIX"), I(1)] + [S("drd:")];
  }

  /** What SCHEMA lists for the terms index, field by field. */
  function TermsFields(): seq<Arg> {
    [S("uid"), S("TEXT")]
    + ([S("cats"), S("TAG"), S("SEPARATOR"), S(",")]
    + ([S("tags"), S("TAG"), S("SEPARATOR"), S(",")]
    + [S("updated"), S("NUMERIC"), S("SORTABLE")]))
  }

  /** The schema of the terms index, field by field. */
  lemma TermsFieldsArgs()
    ensures Create.FieldsArgs(TermsSchema())
         == TermsFields()
  {
    var fs := TermsSchema();
    var f0 := [S("uid"), S("TEXT")];
    var f1 := [S("cats"), S("TAG"), S("SEPARATOR"), S(",")];
    var f2 := [S("tags"), S("TAG"), S("SEPARATOR"), S(",")];
    var f3 := [S("updated"), S("NUMERIC"), S("SORTABLE")];
    assert Create.FieldArgs(fs[0]) == f0;
    assert Create.FieldArgs(fs[1]) == f1;
    assert Create.FieldArgs(fs[2]) == f2;
    assert Create.FieldArgs(fs[3]) == f3;
    assert Create.FieldsArgs(fs[3..]) == f3 by {
      assert fs[3..][1..] == [];
    }
    assert Create.FieldsArgs(fs[2..]) == f2 + f3 by {
      assert fs[2..][1..] == fs[3..];
    }
    assert Create.FieldsArgs(fs[1..]) == f1 + (f2 + f3) by {
      assert fs[1..][1..] == fs[2..];
    }
  }

  /** The query of the dreams search in the simple example, for a single
      word: a prefix match of the word less its last character over five
      fields. */
  method DreamsQuery(word: string) returns (r: string)
    requires |word| >= 1
    ensures r == "@" + "name|slug|description|cats|tags" + ":" + (word[..|word| - 1] + "*")
  {
    var indexQuery := new Query.FtQuery("");
    var q := Query.GenerateSingleWordQuery(Query.QueryType5, word);
    var fields := ["name", "slug", "description", "cats", "tags"];
    indexQuery.AddMultiFieldsPrefixMatchQuery(false, fields, q);
    r := indexQuery.Serialize();
    DreamsClause(q);
    JoinOne(Query.MultiFieldsPrefixMatchClause(false, fields, q));
    assert q == word[..|word| - 1] + "*";
  }

  /** The clause of the dreams query around its prefix term. */
  lemma DreamsClause(q: string)
    ensures Query.MultiFieldsPrefixMatchClause(false, ["name", "slug", "description", "cats", "tags"], q)
         == "@" + "name|slug|description|cats|tags" + ":" + q
  {
    FiveFields();
  }

  lemma FiveFields()
    ensures Join(["name", "slug", "description", "cats", "tags"], "|") == "name|slug|description|cats|tags"
  {
    var xs := ["name", "slug", "description", "cats", "tags"];
    assert xs[1..][1..][1..][1..] == ["tags"];
  }

  lemma JoinOne(x: string)
    ensures Join([x], " ") == x
  {
  }

  /** The dreams search of the simple example: the query, newest first when
      asked for, only the document ids, no stop-word filtering, and the window
      when its size is positive. */
  method DreamsSearch(indexName: string, addQuery: string, latest: bool, offset: int, limit: int)
    returns (r: seq<Arg>)
    ensures r == [S("FT.SEARCH"), S(indexName)] + When(addQuery != "", [S(addQuery)])
                 + [S("NOCONTENT"), S("NOSTOPWORDS")]
                 + When(latest, [S("SORTBY"), S("updated"), S("DESC")])
                 + (if limit > 0 then [S("LIMIT"), I(offset), I(limit)] else [S("LIMIT"), I(0), I(10)])
  {
    var indexSearcher := new Search.FtSearch(indexName);
    indexSearcher.AddQuery(addQuery);
    if latest {
      indexSearcher.AddSortBy("updated", false);
    }
    indexSearcher.AddNoContent(true);
    indexSearcher.AddNoStopWords(true);
    indexSearcher.AddLimit(offset, limit);
    r := indexSearcher.Serialize();
    DreamsArgs(indexName, addQuery, latest, offset, limit, indexSearcher.Config());
  }

  function DreamsConfig(indexName: string, addQuery: string, latest: bool, offset: int, limit: int): Search.SearchConfig {
    var c := Search.NewConfig(indexName).(query := addQuery);
    var c1 := if latest then c.(sortby := Search.SortBy("updated", false)) else c;
    c1.(nocontent := true, nostopwords := true, limit := Search.Limit(offset, limit))
  }

  lemma DreamsArgs(indexName: string, addQuery: string, latest: bool, offset: int, limit: int, c: Search.SearchConfig)
    requires c == DreamsConfig(indexName, addQuery, latest, offset, limit)
    ensures Search.SearchArgs(c)
         == [S("FT.SEARCH"), S(indexName)] + When(addQuery != "", [S(addQuery)])
            + [S("NOCONTENT"), S("NOSTOPWORDS")]
            + When(latest, [S("SORTBY"), S("updated"), S("DESC")])
            + (if limit > 0 then [S("LIMIT"), I(offset), I(limit)] else [S("LIMIT"), I(0), I(10)])
  {
    DreamsParts(indexName, addQuery, latest, offset, limit, c);
    DropEmptyBlocks(Search.HeaderArgs(c), Search.FlagArgs(c), Search.FiltersArgs(c.filters), Search.GeoArgs(c),
      Search.KeysArgs(c), Search.SummarizeArgs(c), Search.HighlightArgs(c), Search.TuningArgs(c),
      Search.SortArgs(c), Search.LimitArgs(c));
  }

  /** The dreams search sends the query, two flags, SORTBY and LIMIT, and no other block. */
  lemma DreamsParts(indexName: string, addQuery: string, latest: bool, offset: int, limit: int, c: Search.SearchConfig)
    requires c == DreamsConfig(indexName, addQuery, latest, offset, limit)
    ensures Search.HeaderArgs(c) == [S("FT.SEARCH"), S(indexName)] + When(addQuery != "", [S(addQuery)])
    ensures Search.FlagArgs(c) == [S("NOCONTENT"), S("NOSTOPWORDS")]
    ensures Search.FiltersArgs(c.filters) == [] && Search.GeoArgs(c) == [] && Search.KeysArgs(c) == []
    ensures Search.SummarizeArgs(c) == [] && Search.HighlightArgs(c) == [] && Search.TuningArgs(c) == []
    ensures Search.SortArgs(c) == When(latest, [S("SORTBY"), S("updated"), S("DESC")])
    ensures Search.LimitArgs(c) == (if limit > 0 then [S("LIMIT"), I(offset), I(limit)] else [S("LIMIT"), I(0), I(10)])
  {
    assert Search.FlagArgs(c) == [S("NOCONTENT")] + [S("NOSTOPWORDS")];
  }

  lemma DropEmptyBlocks(h: seq<Arg>, fl: seq<Arg>, fi: seq<Arg>, g: seq<Arg>, k: seq<Arg>,
                        su: seq<Arg>, hi: seq<Arg>, tu: seq<Arg>, so: seq<Arg>, li: seq<Arg>)
    requires fi == [] && g == [] && k == [] && su == [] && hi == [] && tu == []
    ensures h + fl + fi + g + k + su + hi + tu + so + li == h + fl + so + li
  {
  }
}
