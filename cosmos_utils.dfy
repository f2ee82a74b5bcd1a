/**
 * CosmosUtils: the datastore product name, the id at the end of a resource
 * link, and the lazily initialised SQL statement parser.
 */
module CosmosUtils {
  import opened Wrappers
  import opened JavaLang

  /** The product name every descriptor reports. */
  const COSMOSDB: string := "CosmosDB"

  // ---------------------------------------------------------------------------
  // getIDFromLink: `link.split("/")` and its last element
  // ---------------------------------------------------------------------------

  /** The pieces between the slashes of s, empty ones included, before Java drops any. */
  function Pieces(s: string): (r: seq<string>)
    ensures |r| >= 1
    decreases |s|
  {
    if s == [] then [""]
    else
      var init := Pieces(s[..|s| - 1]);
      var c := s[|s| - 1];
      if c == '/' then init + [""]
      else init[..|init| - 1] + [init[|init| - 1] + [c]]
  }

  /** `String.split` with limit 0 removes the trailing empty strings. */
  function DropTrailingEmpty(parts: seq<string>): (r: seq<string>)
    ensures |r| <= |parts|
    decreases |parts|
  {
    if parts == [] then []
    else if parts[|parts| - 1] == "" then DropTrailingEmpty(parts[..|parts| - 1])
    else parts
  }

  /** `s.split("/")`: a string without a slash is returned whole, even the empty one. */
  function JavaSplit(s: string): seq<string> {
    if '/' !in s then [s] else DropTrailingEmpty(Pieces(s))
  }

  /**
   * `getIDFromLink(link)`: the last element of `link.split("/")`. A null link
   * throws NullPointerException, and an empty split (a link made only of
   * slashes) makes `parts[length - 1]` throw ArrayIndexOutOfBoundsException.
   * Otherwise the id is what follows the last slash once trailing slashes are
   * dropped; in particular `""` gives `""` and a link without a slash is its
   * own id.
   */
  function GetIdFromLink(link: Option<string>): (r: Result<string, Failure>)
    ensures link.None? ==> r == Err(NullPointerException)
    ensures link.Some? && link.value != "" && AllSlashes(link.value) ==> r == Err(ArrayIndexOutOfBoundsException)
    ensures link.Some? && (link.value == "" || !AllSlashes(link.value)) ==>
      r == Ok(AfterLastSlash(TrimTrailingSlashes(link.value)))
  {
    var l :- Deref(link);
    JavaSplitLast(l);
    var parts := JavaSplit(l);
    if |parts| == 0 then Err(ArrayIndexOutOfBoundsException)
    else Ok(parts[|parts| - 1])
  }

  /** Pieces joined back with slashes give the original string. */
  function Join(parts: seq<string>): string
    decreases |parts|
  {
    if parts == [] then ""
    else if |parts| == 1 then parts[0]
    else Join(parts[..|parts| - 1]) + "/" + parts[|parts| - 1]
  }

  // The reference definition: strip the trailing slashes, take what follows the last slash.

  /** s without its trailing slashes. */
  function TrimTrailingSlashes(s: string): string
    decreases |s|
  {
    if s == [] then s
    else if s[|s| - 1] == '/' then TrimTrailingSlashes(s[..|s| - 1])
    else s
  }

  /** The part of s after its last slash (all of s if it has none). */
  function AfterLastSlash(s: string): string
    decreases |s|
  {
    if s == [] then s
    else if s[|s| - 1] == '/' then ""
    else AfterLastSlash(s[..|s| - 1]) + [s[|s| - 1]]
  }

  predicate AllSlashes(s: string) {
    forall i :: 0 <= i < |s| ==> s[i] == '/'
  }

  /** The last piece is what follows the last slash, and no piece contains a slash. */
  lemma {:induction false} PiecesLast(s: string)
    ensures Pieces(s)[|Pieces(s)| - 1] == AfterLastSlash(s)
    ensures forall i :: 0 <= i < |Pieces(s)| ==> '/' !in Pieces(s)[i]
    decreases |s|
  {
    if s != [] {
      PiecesLast(s[..|s| - 1]);
      var init := Pieces(s[..|s| - 1]);
      var c := s[|s| - 1];
      if c != '/' {
        var r := init[..|init| - 1] + [init[|init| - 1] + [c]];
        forall i | 0 <= i < |r|
          ensures '/' !in r[i]
        {
          if i < |init| - 1 {
            assert r[i] == init[i];
          }
        }
      }
    }
  }

  /** Splitting and joining back with slashes gives the original string. */
  lemma {:induction false} JoinPieces(s: string)
    ensures Join(Pieces(s)) == s
    decreases |s|
  {
    if s != [] {
      var p := s[..|s| - 1];
      var c := s[|s| - 1];
      JoinPieces(p);
      assert s == p + [c];
      if c == '/' {
        JoinEmptyLast(Pieces(p));
      } else {
        JoinExtendLast(Pieces(p), c);
      }
    }
  }

  /** A new empty last piece adds a slash. */
  lemma JoinEmptyLast(parts: seq<string>)
    requires |parts| >= 1
    ensures Join(parts + [""]) == Join(parts) + "/"
  {
    assert (parts + [""])[..|parts|] == parts;
  }

  /** A character added to the last piece is added to the joined string. */
  lemma JoinExtendLast(parts: seq<string>, c: char)
    requires |parts| >= 1
    ensures Join(parts[..|parts| - 1] + [parts[|parts| - 1] + [c]]) == Join(parts) + [c]
  {
    var r := parts[..|parts| - 1] + [parts[|parts| - 1] + [c]];
    assert r[..|r| - 1] == parts[..|parts| - 1];
    if |parts| == 1 {
      assert r == [parts[0] + [c]];
    } else {
      assert Join(parts) == Join(parts[..|parts| - 1]) + "/" + parts[|parts| - 1];
    }
  }

  /** Dropping the trailing empty pieces is splitting the string with its trailing slashes trimmed. */
  lemma {:induction false} DropPieces(s: string)
    ensures DropTrailingEmpty(Pieces(s)) ==
      if TrimTrailingSlashes(s) == [] then [] else Pieces(TrimTrailingSlashes(s))
    decreases |s|
  {
    if s != [] {
      var p := s[..|s| - 1];
      var init := Pieces(p);
      DropPieces(p);
      if s[|s| - 1] == '/' {
        assert (init + [""])[..|init|] == init;
      } else {
        var r := init[..|init| - 1] + [init[|init| - 1] + [s[|s| - 1]]];
        assert r[|r| - 1] != "";
      }
    }
  }

  /** The trimmed string is empty exactly when the link is made only of slashes. */
  lemma {:induction false} TrimEmptyIff(s: string)
    ensures TrimTrailingSlashes(s) == [] <==> AllSlashes(s)
    ensures TrimTrailingSlashes(s) != [] ==> TrimTrailingSlashes(s)[|TrimTrailingSlashes(s)| - 1] != '/'
    ensures '/' !in s ==> TrimTrailingSlashes(s) == s && AfterLastSlash(s) == s
    decreases |s|
  {
    if s != [] {
      var p := s[..|s| - 1];
      TrimEmptyIff(p);
      if s[|s| - 1] == '/' {
        if AllSlashes(p) {
          assert AllSlashes(s);
        } else {
          assert !AllSlashes(s) by {
            var i :| 0 <= i < |p| && p[i] != '/';
            assert s[i] != '/';
          }
        }
      } else {
        assert !AllSlashes(s);
        if '/' !in s {
          assert '/' !in p;
        }
      }
    }
  }

  /**
   * `split("/")` is empty exactly for a non-empty string of slashes, and its
   * last element is what follows the last slash once trailing slashes are
   * dropped.
   */
  lemma JavaSplitLast(l: string)
    ensures |JavaSplit(l)| == 0 <==> l != "" && AllSlashes(l)
    ensures |JavaSplit(l)| > 0 ==> JavaSplit(l)[|JavaSplit(l)| - 1] == AfterLastSlash(TrimTrailingSlashes(l))
  {
    TrimEmptyIff(l);
    if '/' in l {
      DropPieces(l);
      if TrimTrailingSlashes(l) != [] {
        PiecesLast(TrimTrailingSlashes(l));
      } else {
        assert l != "";
      }
    }
  }

  /**
   * A successful id contains no slash and sits in the link between the start
   * or a slash and the trailing slashes: `link == before + id + trailing`.
   */
  lemma IdShape(link: string)
    requires GetIdFromLink(Some(link)).Ok?
    ensures var id := GetIdFromLink(Some(link)).value;
      && '/' !in id
      && exists before, trailing ::
           && link == before + id + trailing
           && AllSlashes(trailing)
           && (before == [] || before[|before| - 1] == '/')
  {
    assert GetIdFromLink(Some(link)).value == AfterLastSlash(TrimTrailingSlashes(link));
    ShapeOfLastSegment(link);
  }

  lemma ShapeOfLastSegment(link: string)
    ensures var id := AfterLastSlash(TrimTrailingSlashes(link));
      && '/' !in id
      && exists before, trailing ::
           && link == before + id + trailing
           && AllSlashes(trailing)
           && (before == [] || before[|before| - 1] == '/')
  {
    var trimmed := TrimTrailingSlashes(link);
    var id := AfterLastSlash(trimmed);
    AfterLastSlashSplit(trimmed);
    var before, trailing := SplitAround(link);
    assert link == before + id + trailing;
  }

  /** The pieces around the id: what precedes it and the trailing slashes. */
  lemma SplitAround(link: string) returns (before: string, trailing: string)
    ensures link == before + AfterLastSlash(TrimTrailingSlashes(link)) + trailing
    ensures AllSlashes(trailing)
    ensures before == [] || before[|before| - 1] == '/'
  {
    var trimmed := TrimTrailingSlashes(link);
    var id := AfterLastSlash(trimmed);
    TrimSplit(link);
    AfterLastSlashSplit(trimmed);
    trailing := link[|trimmed|..];
    before := trimmed[..|trimmed| - |id|];
    assert trimmed == before + id by {
      assert trimmed[|trimmed| - |id|..] == id;
    }
    assert link == trimmed + trailing by {
      assert link[..|trimmed|] == trimmed;
    }
  }

  lemma {:induction false} TrimSplit(s: string)
    ensures |TrimTrailingSlashes(s)| <= |s|
    ensures s[..|TrimTrailingSlashes(s)|] == TrimTrailingSlashes(s)
    ensures AllSlashes(s[|TrimTrailingSlashes(s)|..])
    decreases |s|
  {
    if s != [] && s[|s| - 1] == '/' {
      var p := s[..|s| - 1];
      TrimSplit(p);
      var k := |TrimTrailingSlashes(p)|;
      assert s[k..] == p[k..] + ['/'];
    }
  }

  lemma {:induction false} AfterLastSlashSplit(s: string)
    ensures |AfterLastSlash(s)| <= |s|
    ensures s[|s| - |AfterLastSlash(s)|..] == AfterLastSlash(s)
    ensures '/' !in AfterLastSlash(s)
    ensures |AfterLastSlash(s)| < |s| ==> s[|s| - |AfterLastSlash(s)| - 1] == '/'
    decreases |s|
  {
    if s != [] && s[|s| - 1] != '/' {
      var p := s[..|s| - 1];
      var x := s[|s| - 1];
      AfterLastSlashSplit(p);
      var a := AfterLastSlash(p);
      var k := |a|;
      assert AfterLastSlash(s) == a + [x];
      assert s == p + [x];
      assert s[|s| - (k + 1)..] == p[|p| - k..] + [x];
      assert '/' !in a + [x] by {
        assert forall i :: 0 <= i < k ==> (a + [x])[i] == a[i];
      }
      if k + 1 < |s| {
        assert s[|s| - k - 2] == p[|p| - k - 1];
      }
    }
  }

  /** Worked example: the id of a full link is its last segment. */
  lemma ExampleFullLink()
    ensures GetIdFromLink(Some("dbs/mydb/colls/items")) == Ok("items")
  {
    var l := "dbs/mydb/colls/items";
    assert l[0] != '/';
    assert TrimTrailingSlashes(l) == l;
    AfterLastSlashSplit(l);
    assert l[|l| - 6] == '/';
    assert "items" == l[|l| - 5..];
  }

  /** Worked example: a trailing slash is ignored. */
  lemma ExampleTrailingSlash()
    ensures GetIdFromLink(Some("dbs/mydb/")) == Ok("mydb")
  {
    var l := "dbs/mydb/";
    assert l[0] != '/';
    assert l[..|l| - 1] == "dbs/mydb";
    assert TrimTrailingSlashes(l) == "dbs/mydb";
    AfterLastSlashSplit("dbs/mydb");
    assert "dbs/mydb"[3] == '/';
    assert "mydb" == "dbs/mydb"[4..];
  }

  /** Worked example: the empty link is its own id, and a link of slashes only fails. */
  lemma ExampleEmptyAndSlashes()
    ensures GetIdFromLink(Some("")) == Ok("")
    ensures GetIdFromLink(Some("///")) == Err(ArrayIndexOutOfBoundsException)
  {
    assert AllSlashes("///");
  }

  // ---------------------------------------------------------------------------
  // parseSQL and init: the lazily initialised statement parser
  // ---------------------------------------------------------------------------

  /** What the agent's parser makes of a query: its model (the collection) and operation. */
  datatype ParsedStatement = ParsedStatement(model: string, operation: string)

  /** The agent's statement parser for the CosmosDB vendor, an oracle; it may return null. */
  type StatementParser = Option<string> -> Option<ParsedStatement>

  /** The agent's database service; its statement parser may be null. */
  datatype DatabaseService = DatabaseService(statementParser: Option<StatementParser>)

  /** The static fields `parser` and `initialized`. */
  datatype ParserState = ParserState(parser: Option<StatementParser>, initialized: bool)

  /** The state when the class is loaded. */
  const Unloaded: ParserState := ParserState(None, false)

  /** `init()` when `ServiceFactory.getDatabaseService()` returns `service`. */
  function InitSpec(st: ParserState, service: Option<DatabaseService>): ParserState {
    match service
    case None => st
    case Some(db) => ParserState(db.statementParser, true)
  }

  /** `parseSQL(sql)` when the database service is `service`: the new state and the outcome. */
  function ParseSqlSpec(st: ParserState, sql: Option<string>, service: Option<DatabaseService>): (ParserState, Result<Option<ParsedStatement>, Failure>) {
    var st' := if !st.initialized then InitSpec(st, service) else st;
    if st'.initialized then
      match st'.parser
      case None => (st', Err(NullPointerException))
      case Some(parse) => (st', Ok(parse(sql)))
    else
      (st', Ok(None))
  }

  /** `init` sets the flag exactly when the service exists, and never clears it. */
  lemma InitSpecFacts(st: ParserState, service: Option<DatabaseService>)
    ensures InitSpec(st, service).initialized == (st.initialized || service.Some?)
    ensures service.None? ==> InitSpec(st, service) == st
    ensures service.Some? ==> InitSpec(st, service).parser == service.value.statementParser
  {
  }

  /** The outcomes of successive `parseSQL` calls, each seeing the service of its moment. */
  function ParseSequence(st: ParserState, calls: seq<(Option<string>, Option<DatabaseService>)>): (ParserState, seq<Result<Option<ParsedStatement>, Failure>>)
    decreases |calls|
  {
    if calls == [] then (st, [])
    else
      var (st1, r) := ParseSqlSpec(st, calls[0].0, calls[0].1);
      var (st2, rs) := ParseSequence(st1, calls[1..]);
      (st2, [r] + rs)
  }

  /**
   * While the service is missing, every call returns null and leaves the
   * parser uninitialised, so the next call tries `init` again.
   */
  lemma {:induction false} RetriesWhileServiceMissing(st: ParserState, calls: seq<(Option<string>, Option<DatabaseService>)>)
    requires !st.initialized
    requires forall i :: 0 <= i < |calls| ==> calls[i].1.None?
    ensures ParseSequence(st, calls).0 == st
    ensures |ParseSequence(st, calls).1| == |calls|
    ensures forall i :: 0 <= i < |calls| ==> ParseSequence(st, calls).1[i] == Ok(None)
    decreases |calls|
  {
    if calls != [] {
      RetriesWhileServiceMissing(st, calls[1..]);
    }
  }

  /**
   * The first call that finds the service initialises the parser and already
   * returns the parser's result for the query.
   */
  lemma ServiceAppears(st: ParserState, sql: Option<string>, parse: StatementParser)
    requires !st.initialized
    ensures ParseSqlSpec(st, sql, Some(DatabaseService(Some(parse)))).0 == ParserState(Some(parse), true)
    ensures ParseSqlSpec(st, sql, Some(DatabaseService(Some(parse)))).1 == Ok(parse(sql))
  {
  }

  /**
   * Once initialised, `parseSQL` no longer looks at the service and returns
   * the stored parser's result, or throws if the service gave a null parser.
   */
  lemma {:induction false} InitializedIsSticky(st: ParserState, calls: seq<(Option<string>, Option<DatabaseService>)>)
    requires st.initialized
    ensures ParseSequence(st, calls).0 == st
    ensures |ParseSequence(st, calls).1| == |calls|
    ensures forall i :: 0 <= i < |calls| ==>
      ParseSequence(st, calls).1[i] ==
        (if st.parser.Some? then Ok(st.parser.value(calls[i].0)) else Err(NullPointerException))
    decreases |calls|
  {
    if calls != [] {
      InitializedIsSticky(st, calls[1..]);
    }
  }

  /** The static state of CosmosUtils. */
  class Statics {
    var parser: Option<StatementParser>
    var initialized: bool

    ghost function State(): ParserState
      reads this
    {
      ParserState(parser, initialized)
    }

    /** Class loading: no parser, not initialised. */
    constructor ()
      ensures State() == Unloaded
    {
      parser := None;
      initialized := false;
    }

    /** `init()`, with `ServiceFactory.getDatabaseService()` returning `service`. */
    method Init(service: Option<DatabaseService>)
      modifies this
      ensures State() == InitSpec(old(State()), service)
    {
      if service.Some? {
        parser := service.value.statementParser;
        initialized := true;
      }
    }

    /** `parseSQL(sql)`, with the database service of the moment. */
    method ParseSql(sql: Option<string>, service: Option<DatabaseService>) returns (r: Result<Option<ParsedStatement>, Failure>)
      modifies this
      ensures (State(), r) == ParseSqlSpec(old(State()), sql, service)
    {
      if !initialized {
        Init(service);
      }
      if initialized {
        match parser {
          case None =>
            return Err(NullPointerException);
          case Some(parse) =>
            return Ok(parse(sql));
        }
      }
      return Ok(None);
    }
  }
}
