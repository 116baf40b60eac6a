/**
 * The journey mapper: it discovers the journey documents, takes title and slug
 * from each, and aggregates them into the slug -> {title} mapping that is
 * written to data/journeys.json.
 *
 * The file system and the page parser are inputs: the glob's outcome is a
 * `Result<seq<string>>`, opening and parsing one document is a `Parser`, and
 * the outcomes of opening and encoding the output file are `Option<string>`
 * errors.
 */
module JourneyMapping {
  import opened Outcomes

  /** What the page parser reports about one document. */
  datatype Page = Page(title: string, slug: string)

  /** One discovered journey. */
  datatype Journey = Journey(name: string, slug: string)

  /** The value stored under a slug in data/journeys.json. */
  datatype MappingEntry = MappingEntry(title: string)

  type Mapping = map<string, MappingEntry>

  /** Opening a document and parsing its front matter, as one step that may fail. */
  type Parser = string -> Result<Page>

  const Target := "data/journeys.json"
  const LogPrefix := "[journeymapper] "

  /** Turns the outcome of parsing one path into a journey: slug and title are copied, an error is passed on. */
  function NewJourney(parse: Parser, path: string): (r: Result<Journey>)
    ensures r.Ok? <==> parse(path).Ok?
    ensures r.Ok? ==> r.value.slug == parse(path).value.slug && r.value.name == parse(path).value.title
    ensures r.Err? ==> r.error == parse(path).error
  {
    match parse(path)
    case Err(e) => Err(e)
    case Ok(page) => Ok(Journey(name := page.title, slug := page.slug))
  }

  /** The error reported when one candidate cannot be parsed. */
  function ParseFailure(path: string, cause: string): string {
    "Failed to parse " + path + ": " + cause
  }

  /** The candidate paths the glob yields; an enumeration error yields none. */
  function Candidates(glob: Result<seq<string>>): seq<string> {
    if glob.Ok? then glob.value else []
  }

  /** The index of the first path the parser rejects, or |paths| when it rejects none. */
  function FirstFailure(parse: Parser, paths: seq<string>): (k: nat)
    ensures k <= |paths|
    ensures forall i :: 0 <= i < k ==> parse(paths[i]).Ok?
    ensures k < |paths| ==> parse(paths[k]).Err?
  {
    if paths == [] || parse(paths[0]).Err? then 0 else 1 + FirstFailure(parse, paths[1..])
  }

  /** The paths handed to the parser: all of them, or those up to and including the first rejected one. */
  function Attempted(parse: Parser, paths: seq<string>): seq<string> {
    var k := FirstFailure(parse, paths);
    if k < |paths| then paths[..k + 1] else paths
  }

  /** The log line written once a path has been parsed. */
  function FoundLine(path: string): string {
    LogPrefix + "Found " + path
  }

  function FoundLines(paths: seq<string>): (r: seq<string>)
    ensures |r| == |paths|
  {
    seq(|paths|, i requires 0 <= i < |paths| => FoundLine(paths[i]))
  }

  lemma FoundLinesExtend(paths: seq<string>, i: nat)
    requires i < |paths|
    ensures FoundLines(paths[..i + 1]) == FoundLines(paths[..i]) + [FoundLine(paths[i])]
  {
  }

  /** The log line written once the output has been encoded. */
  const UpdatedLine := LogPrefix + Target + " updated"

  /**
   * Reference definition of discovery: parse the paths front to back, stop at
   * the first failure and report it with its path, else collect the journeys.
   */
  function Discover(parse: Parser, paths: seq<string>): Result<seq<Journey>> {
    if paths == [] then Ok([])
    else
      match NewJourney(parse, paths[0])
      case Err(e) => Err(ParseFailure(paths[0], e))
      case Ok(j) =>
        match Discover(parse, paths[1..])
        case Err(e) => Err(e)
        case Ok(js) => Ok([j] + js)
  }

  /** Discovery succeeds exactly when every path parses, and then yields one journey per path, in order. */
  lemma {:induction false} DiscoverSucceeds(parse: Parser, paths: seq<string>)
    ensures Discover(parse, paths).Ok? <==> FirstFailure(parse, paths) == |paths|
    ensures Discover(parse, paths).Ok? ==>
              |Discover(parse, paths).value| == |paths| &&
              forall i :: 0 <= i < |paths| ==> NewJourney(parse, paths[i]) == Ok(Discover(parse, paths).value[i])
  {
    if paths != [] && parse(paths[0]).Ok? {
      DiscoverSucceeds(parse, paths[1..]);
      var d := Discover(parse, paths);
      if d.Ok? {
        forall i | 0 <= i < |paths|
          ensures NewJourney(parse, paths[i]) == Ok(d.value[i])
        {
          if i > 0 {
            assert paths[i] == paths[1..][i - 1];
          }
        }
      }
    }
  }

  /** On failure, discovery reports the first rejected path together with the parser's cause. */
  lemma {:induction false} DiscoverFails(parse: Parser, paths: seq<string>)
    ensures Discover(parse, paths).Err? ==>
              var k := FirstFailure(parse, paths);
              k < |paths| &&
              Discover(parse, paths).error == ParseFailure(paths[k], parse(paths[k]).error)
  {
    if paths != [] && parse(paths[0]).Ok? && Discover(parse, paths).Err? {
      DiscoverFails(parse, paths[1..]);
      var k := FirstFailure(parse, paths[1..]);
      assert paths[1..][k] == paths[k + 1];
    }
  }

  /** Discovery stopped at index i: the failure reported is that of paths[i], and the parser saw paths[..i + 1]. */
  lemma StopsAt(parse: Parser, paths: seq<string>, i: nat)
    requires i < |paths| && i <= FirstFailure(parse, paths)
    requires parse(paths[i]).Err?
    ensures FirstFailure(parse, paths) == i
    ensures Discover(parse, paths) == Err(ParseFailure(paths[i], parse(paths[i]).error))
    ensures Attempted(parse, paths) == paths[..i + 1]
  {
    DiscoverSucceeds(parse, paths);
    DiscoverFails(parse, paths);
  }

  /** No candidates, or a glob that failed, means no journeys and no error. */
  lemma NoCandidates(parse: Parser, glob: Result<seq<string>>)
    requires glob.Err? || glob.value == []
    ensures Discover(parse, Candidates(glob)) == Ok([])
  {
  }

  /** The mapping built by inserting the journeys' entries in sequence order. */
  function Aggregate(js: seq<Journey>): Mapping
    decreases |js|
  {
    if js == [] then map[]
    else
      var last := js[|js| - 1];
      Aggregate(js[..|js| - 1])[last.slug := MappingEntry(last.name)]
  }

  function Slugs(js: seq<Journey>): set<string> {
    set j | j in js :: j.slug
  }

  /** The mapping's keys are exactly the slugs of the journeys. */
  lemma {:induction false} AggregateKeys(js: seq<Journey>)
    ensures Aggregate(js).Keys == Slugs(js)
  {
    if js != [] {
      var front := js[..|js| - 1];
      AggregateKeys(front);
      assert js == front + [js[|js| - 1]];
      assert Slugs(js) == Slugs(front) + {js[|js| - 1].slug};
    }
  }

  /** A slug maps to the title of the last journey carrying it: the last write wins. */
  lemma {:induction false} AggregateLastWins(js: seq<Journey>, i: nat)
    requires i < |js|
    requires forall j :: i < j < |js| ==> js[j].slug != js[i].slug
    ensures js[i].slug in Aggregate(js)
    ensures Aggregate(js)[js[i].slug] == MappingEntry(js[i].name)
  {
    if i < |js| - 1 {
      var front := js[..|js| - 1];
      AggregateLastWins(front, i);
    }
  }

  /** Every entry of the mapping holds the title of some journey carrying its key. */
  lemma {:induction false} AggregateEntriesFromJourneys(js: seq<Journey>, slug: string)
    requires slug in Aggregate(js)
    ensures exists i :: 0 <= i < |js| && js[i].slug == slug && Aggregate(js)[slug] == MappingEntry(js[i].name)
  {
    var last := js[|js| - 1];
    if last.slug != slug {
      var front := js[..|js| - 1];
      AggregateEntriesFromJourneys(front, slug);
      var i :| 0 <= i < |front| && front[i].slug == slug && Aggregate(front)[slug] == MappingEntry(front[i].name);
      assert js[i] == front[i];
    }
  }

  /** The error buildJourneyMapping returns, or None: discovery, then opening, then encoding. */
  function BuildError(parse: Parser, glob: Result<seq<string>>, openErr: Option<string>, encodeErr: Option<string>): Option<string> {
    match Discover(parse, Candidates(glob))
    case Err(e) => Some(e)
    case Ok(_) => if openErr.Some? then openErr else encodeErr
  }

  /** The mapping handed to the encoder for the output file, or None when the job stops before writing. */
  function BuildOutput(parse: Parser, glob: Result<seq<string>>, openErr: Option<string>): Option<Mapping> {
    match Discover(parse, Candidates(glob))
    case Err(_) => None
    case Ok(js) => if openErr.Some? then None else Some(Aggregate(js))
  }

  /**
   * A parse failure is what the job reports, and nothing is written:
   * the early return comes before the output file is opened.
   */
  lemma ParseFailureStopsBeforeOutput(parse: Parser, glob: Result<seq<string>>, openErr: Option<string>, encodeErr: Option<string>)
    requires FirstFailure(parse, Candidates(glob)) < |Candidates(glob)|
    ensures var paths := Candidates(glob);
            var k := FirstFailure(parse, paths);
            BuildError(parse, glob, openErr, encodeErr) == Some(ParseFailure(paths[k], parse(paths[k]).error)) &&
            BuildOutput(parse, glob, openErr) == None
  {
    DiscoverSucceeds(parse, Candidates(glob));
    DiscoverFails(parse, Candidates(glob));
  }

  /** When every candidate parses and the file opens, the written mapping is keyed by exactly the parsed slugs. */
  lemma {:induction false} WrittenKeysAreParsedSlugs(parse: Parser, glob: Result<seq<string>>, openErr: Option<string>)
    requires FirstFailure(parse, Candidates(glob)) == |Candidates(glob)|
    requires openErr.None?
    ensures BuildOutput(parse, glob, openErr).Some?
    ensures BuildOutput(parse, glob, openErr).value.Keys == set p | p in Candidates(glob) :: parse(p).value.slug
  {
    var paths := Candidates(glob);
    DiscoverSucceeds(parse, paths);
    var js := Discover(parse, paths).value;
    AggregateKeys(js);
    forall s | s in Slugs(js) ensures exists p :: p in paths && parse(p).Ok? && parse(p).value.slug == s {
      var j :| j in js && j.slug == s;
      var i :| 0 <= i < |js| && js[i] == j;
      assert parse(paths[i]).value.slug == s;
    }
    forall p | p in paths ensures parse(p).value.slug in Slugs(js) {
      var i :| 0 <= i < |paths| && paths[i] == p;
      assert js[i] in js;
    }
  }

  /** The job: its state is what its logger has written, plus a ghost trace of the parser's inputs. */
  class JourneyMapper {
    /** Lines written through the job's info logger, oldest first. */
    var infoLog: seq<string>
    /** Every path handed to the parser, in call order. */
    ghost var parsed: seq<string>

    constructor ()
      ensures infoLog == [] && parsed == []
    {
      infoLog := [];
      parsed := [];
    }

    /** The job's name as the runner reports it. */
    function Name(): (r: string)
      ensures r == "journey mapper"
    {
      "journey mapper"
    }

    /**
     * Parses the candidates front to back. The first failure ends the loop at
     * once with an error naming its path; otherwise one journey per path, in order.
     */
    method FindJourneys(glob: Result<seq<string>>, parse: Parser) returns (r: Result<seq<Journey>>)
      modifies this
      ensures r == Discover(parse, Candidates(glob))
      ensures glob.Err? ==> r == Ok([])
      ensures infoLog == old(infoLog) + FoundLines(Candidates(glob)[..FirstFailure(parse, Candidates(glob))])
      ensures parsed == old(parsed) + Attempted(parse, Candidates(glob))
    {
      var candidates := Candidates(glob);
      var result: seq<Journey> := [];
      var i := 0;
      while i < |candidates|
        invariant i <= FirstFailure(parse, candidates)
        invariant |result| == i
        invariant forall j :: 0 <= j < i ==> NewJourney(parse, candidates[j]) == Ok(result[j])
        invariant infoLog == old(infoLog) + FoundLines(candidates[..i])
        invariant parsed == old(parsed) + candidates[..i]
      {
        var jo := NewJourney(parse, candidates[i]);
        parsed := parsed + [candidates[i]];
        assert candidates[..i + 1] == candidates[..i] + [candidates[i]];
        if jo.Err? {
          StopsAt(parse, candidates, i);
          r := Err(ParseFailure(candidates[i], jo.error));
          return;
        }
        infoLog := infoLog + [FoundLine(candidates[i])];
        FoundLinesExtend(candidates, i);
        result := result + [jo.value];
        i := i + 1;
      }
      DiscoverSucceeds(parse, candidates);
      assert result == Discover(parse, candidates).value;
      r := Ok(result);
    }

    /**
     * Discovers the journeys, returns discovery's error untouched, else builds
     * the mapping by sequential insertion and hands it to the encoder.
     * `written` is the mapping handed to the encoder, None when nothing is written.
     */
    method BuildJourneyMapping(glob: Result<seq<string>>, parse: Parser, openErr: Option<string>, encodeErr: Option<string>)
      returns (err: Option<string>, written: Option<Mapping>)
      modifies this
      ensures err == BuildError(parse, glob, openErr, encodeErr)
      ensures written == BuildOutput(parse, glob, openErr)
      ensures parsed == old(parsed) + Attempted(parse, Candidates(glob))
      ensures infoLog == old(infoLog) + FoundLines(Candidates(glob)[..FirstFailure(parse, Candidates(glob))])
                         + (if err.None? then [UpdatedLine] else [])
    {
      var journeys := FindJourneys(glob, parse);
      if journeys.Err? {
        return Some(journeys.error), None;
      }
      var js := journeys.value;
      var mapping: Mapping := map[];
      var i := 0;
      while i < |js|
        invariant i <= |js|
        invariant mapping == Aggregate(js[..i])
      {
        assert js[..i + 1][..i] == js[..i];
        mapping := mapping[js[i].slug := MappingEntry(js[i].name)];
        i := i + 1;
      }
      assert js[..i] == js;
      if openErr.Some? {
        return openErr, None;
      }
      written := Some(mapping);
      if encodeErr.Some? {
        return encodeErr, written;
      }
      infoLog := infoLog + [UpdatedLine];
      err := None;
    }

    /** Running the job is building the mapping. */
    method Run(glob: Result<seq<string>>, parse: Parser, openErr: Option<string>, encodeErr: Option<string>)
      returns (err: Option<string>, written: Option<Mapping>)
      modifies this
      ensures err == BuildError(parse, glob, openErr, encodeErr)
      ensures written == BuildOutput(parse, glob, openErr)
      ensures parsed == old(parsed) + Attempted(parse, Candidates(glob))
      ensures infoLog == old(infoLog) + FoundLines(Candidates(glob)[..FirstFailure(parse, Candidates(glob))])
                         + (if err.None? then [UpdatedLine] else [])
    {
      err, written := BuildJourneyMapping(glob, parse, openErr, encodeErr);
    }
  }
}
