/** How SearchProducts reads the FT.SEARCH reply it gets back: a flat array
    [total, docId, [name, value, ...], docId, [...], ...]. Each document
    becomes "Title: {title}\nDescription: {description}"; a missing field
    reads as the empty string and a later duplicate field wins. Any cast, index
    or float.Parse failure fails the whole parse. */
module SearchReply {
  import opened Common
  import opened Store

  /** `(string)result`: the text of a bulk string or an integer, null for
      nil; an array does not convert. */
  function AsString(r: RedisResult): Result<Option<string>>
  {
    match r
    case BulkString(s) => Ok(Some(s))
    case Integer(i) => Ok(Some(IntText(i)))
    case Nil => Ok(None)
    case Array(_) => Err(MalformedReply)
  }

  /** The two locals of one document that reach the result. */
  datatype Hit = Hit(title: string, description: string)

  function HitText(h: Hit): string
  {
    "Title: " + h.title + "\nDescription: " + h.description
  }

  /** One result string per hit, in order. */
  function Texts(hs: seq<Hit>): seq<string>
  {
    seq(|hs|, k requires 0 <= k < |hs| => HitText(hs[k]))
  }

  // ---------------------------------------------------------------------------
  // The parse, step by step as the loops take it

  /** One pass of the inner loop over a (name, value) pair. A null value
      assigned to title or description prints as nothing; a vector_score
      that float.Parse refuses (or null) throws. */
  function FieldStep(h: Hit, name: RedisResult, value: RedisResult, floatParses: string -> bool): (r: Result<Hit>)
  {
    match (AsString(name), AsString(value))
    case (Ok(n), Ok(v)) =>
      if n == Some("title") then Ok(h.(title := TextOrEmpty(v)))
      else if n == Some("description") then Ok(h.(description := TextOrEmpty(v)))
      else if n == Some("vector_score") then (if v.Some? && floatParses(v.value) then Ok(h) else Err(MalformedReply))
      else Ok(h)
    case _ => Err(MalformedReply)
  }

  /** The inner loop from the state h; an odd trailing name has no value
      (fields[j + 1] is out of range). */
  function ScanFields(fs: seq<RedisResult>, h: Hit, floatParses: string -> bool): (r: Result<Hit>)
    ensures r.Err? ==> r.error == MalformedReply
    decreases |fs|
  {
    if fs == [] then Ok(h)
    else if |fs| == 1 then Err(MalformedReply)
    else
      match FieldStep(h, fs[0], fs[1], floatParses)
      case Err(e) => Err(e)
      case Ok(h') => ScanFields(fs[2..], h', floatParses)
  }

  /** The outer loop over (docId, fields) pairs; the fields must be an array. */
  function ScanDocs(body: seq<RedisResult>, floatParses: string -> bool): (r: Result<seq<Hit>>)
    ensures r.Err? ==> r.error == MalformedReply
    decreases |body|
  {
    if body == [] then Ok([])
    else if |body| == 1 || !body[1].Array? then Err(MalformedReply)
    else
      match ScanFields(body[1].items, Hit("", ""), floatParses)
      case Err(e) => Err(e)
      case Ok(h) =>
        match ScanDocs(body[2..], floatParses)
        case Err(e) => Err(e)
        case Ok(rest) => Ok([h] + rest)
  }

  /** The whole reply: an array whose first element is the integer total. */
  function ReplyHits(reply: RedisResult, floatParses: string -> bool): (r: Result<seq<Hit>>)
    ensures r.Err? ==> r.error == MalformedReply
  {
    if reply.Array? && |reply.items| >= 1 && reply.items[0].Integer?
    then ScanDocs(reply.items[1..], floatParses)
    else Err(MalformedReply)
  }

  function ParseReply(reply: RedisResult, floatParses: string -> bool): (r: Result<seq<string>>)
    ensures r.Err? ==> r.error == MalformedReply
  {
    match ReplyHits(reply, floatParses)
    case Err(e) => Err(e)
    case Ok(hs) => Ok(Texts(hs))
  }

  /** Prepending the hits already found to the outcome of the rest. */
  function Then(done: seq<Hit>, rest: Result<seq<Hit>>): Result<seq<Hit>>
  {
    match rest
    case Err(e) => Err(e)
    case Ok(hs) => Ok(done + hs)
  }

  lemma ThenNone(rest: Result<seq<Hit>>)
    ensures Then([], rest) == rest
  {
    if rest.Ok? {
      assert [] + rest.value == rest.value;
    }
  }

  lemma ThenThen(done: seq<Hit>, h: Hit, rest: Result<seq<Hit>>)
    ensures Then(done, Then([h], rest)) == Then(done + [h], rest)
  {
    if rest.Ok? {
      assert done + ([h] + rest.value) == done + [h] + rest.value;
    }
  }

  // ---------------------------------------------------------------------------
  // What the parse means, stated on the reply's pairs

  function Pairs<T>(xs: seq<T>): (ps: seq<(T, T)>)
    requires |xs| % 2 == 0
    ensures |ps| == |xs| / 2
    decreases |xs|
  {
    if xs == [] then [] else [(xs[0], xs[1])] + Pairs(xs[2..])
  }

  predicate Named(p: (RedisResult, RedisResult), name: string)
  {
    AsString(p.0) == Ok(Some(name))
  }

  function ValueText(p: (RedisResult, RedisResult)): string
  {
    match AsString(p.1)
    case Ok(v) => TextOrEmpty(v)
    case Err(_) => ""
  }

  /** The value of the last pair called name, or dflt when no pair is. */
  function LastValue(ps: seq<(RedisResult, RedisResult)>, name: string, dflt: string): string
    decreases |ps|
  {
    if ps == [] then dflt
    else if Named(ps[|ps| - 1], name) then ValueText(ps[|ps| - 1])
    else LastValue(ps[..|ps| - 1], name, dflt)
  }

  /** A pair the inner loop gets past: both sides convert to text, and a
      vector_score value is a float. */
  predicate PairOk(p: (RedisResult, RedisResult), floatParses: string -> bool)
  {
    && AsString(p.0).Ok?
    && AsString(p.1).Ok?
    && (Named(p, "vector_score") ==> AsString(p.1).value.Some? && floatParses(AsString(p.1).value.value))
  }

  predicate FieldsOk(fs: seq<RedisResult>, floatParses: string -> bool)
  {
    |fs| % 2 == 0 && forall k :: 0 <= k < |Pairs(fs)| ==> PairOk(Pairs(fs)[k], floatParses)
  }

  predicate DocsOk(body: seq<RedisResult>, floatParses: string -> bool)
  {
    |body| % 2 == 0 &&
    forall k :: 0 <= k < |Pairs(body)| ==> Pairs(body)[k].1.Array? && FieldsOk(Pairs(body)[k].1.items, floatParses)
  }

  predicate WellFormedReply(reply: RedisResult, floatParses: string -> bool)
  {
    reply.Array? && |reply.items| >= 1 && reply.items[0].Integer? && DocsOk(reply.items[1..], floatParses)
  }

  /** The document a fields array describes: the last title and the last
      description, each "" when absent. */
  function HitOf(fs: seq<RedisResult>): Hit
    requires |fs| % 2 == 0
  {
    Hit(LastValue(Pairs(fs), "title", ""), LastValue(Pairs(fs), "description", ""))
  }

  lemma {:induction false} LastValueCons(p: (RedisResult, RedisResult), ps: seq<(RedisResult, RedisResult)>, name: string, dflt: string)
    ensures LastValue([p] + ps, name, dflt) == LastValue(ps, name, if Named(p, name) then ValueText(p) else dflt)
    decreases |ps|
  {
    if ps != [] {
      var all := [p] + ps;
      assert all[|all| - 1] == ps[|ps| - 1];
      assert all[..|all| - 1] == [p] + ps[..|ps| - 1];
      LastValueCons(p, ps[..|ps| - 1], name, dflt);
    }
  }

  lemma PairsCons<T>(xs: seq<T>)
    requires |xs| >= 2 && |xs| % 2 == 0
    ensures Pairs(xs) == [(xs[0], xs[1])] + Pairs(xs[2..])
  {
  }

  /** The inner loop succeeds exactly on well-formed fields, and leaves the
      last title and description it met (or what it started with). */
  lemma {:induction false} ScanFieldsMeaning(fs: seq<RedisResult>, h: Hit, floatParses: string -> bool)
    ensures ScanFields(fs, h, floatParses).Ok? <==> FieldsOk(fs, floatParses)
    ensures ScanFields(fs, h, floatParses).Ok? ==>
              ScanFields(fs, h, floatParses).value ==
                Hit(LastValue(Pairs(fs), "title", h.title), LastValue(Pairs(fs), "description", h.description))
    decreases |fs|
  {
    if |fs| >= 2 {
      var p := (fs[0], fs[1]);
      var step := FieldStep(h, fs[0], fs[1], floatParses);
      assert step.Ok? <==> PairOk(p, floatParses);
      if |fs| % 2 == 0 {
        PairsCons(fs);
        LastValueCons(p, Pairs(fs[2..]), "title", h.title);
        LastValueCons(p, Pairs(fs[2..]), "description", h.description);
        if step.Ok? {
          ScanFieldsMeaning(fs[2..], step.value, floatParses);
          if FieldsOk(fs[2..], floatParses) {
            forall k | 0 <= k < |Pairs(fs)|
              ensures PairOk(Pairs(fs)[k], floatParses)
            {
              if k > 0 {
                assert Pairs(fs)[k] == Pairs(fs[2..])[k - 1];
              }
            }
          } else {
            var k :| 0 <= k < |Pairs(fs[2..])| && !PairOk(Pairs(fs[2..])[k], floatParses);
            assert Pairs(fs)[k + 1] == Pairs(fs[2..])[k];
          }
        } else {
          assert Pairs(fs)[0] == p;
        }
      } else {
        if step.Ok? {
          ScanFieldsMeaning(fs[2..], step.value, floatParses);
        }
      }
    }
  }

  /** The outer loop succeeds exactly on well-formed documents and yields one
      hit per (docId, fields) pair, in reply order. */
  lemma {:induction false} ScanDocsMeaning(body: seq<RedisResult>, floatParses: string -> bool)
    ensures ScanDocs(body, floatParses).Ok? <==> DocsOk(body, floatParses)
    ensures ScanDocs(body, floatParses).Ok? ==>
              |ScanDocs(body, floatParses).value| == |Pairs(body)| &&
              forall k :: 0 <= k < |Pairs(body)| ==>
                ScanDocs(body, floatParses).value[k] == HitOf(Pairs(body)[k].1.items)
    decreases |body|
  {
    if |body| >= 2 {
      ScanDocsMeaning(body[2..], floatParses);
      if |body| % 2 == 0 {
        PairsCons(body);
        var d := Pairs(body)[0];
        assert d.1 == body[1];
        if body[1].Array? {
          ScanFieldsMeaning(body[1].items, Hit("", ""), floatParses);
          var fr := ScanFields(body[1].items, Hit("", ""), floatParses);
          if fr.Ok? && DocsOk(body[2..], floatParses) {
            forall k | 0 <= k < |Pairs(body)|
              ensures Pairs(body)[k].1.Array? && FieldsOk(Pairs(body)[k].1.items, floatParses)
              ensures ScanDocs(body, floatParses).value[k] == HitOf(Pairs(body)[k].1.items)
            {
              if k > 0 {
                assert Pairs(body)[k] == Pairs(body[2..])[k - 1];
              }
            }
          } else if fr.Ok? {
            var k :| 0 <= k < |Pairs(body[2..])| &&
                     !(Pairs(body[2..])[k].1.Array? && FieldsOk(Pairs(body[2..])[k].1.items, floatParses));
            assert Pairs(body)[k + 1] == Pairs(body[2..])[k];
          }
        } else {
          assert !Pairs(body)[0].1.Array?;
        }
      } else {
        if body[1].Array? {
          var fr := ScanFields(body[1].items, Hit("", ""), floatParses);
        }
      }
    }
  }

  /** The parse succeeds exactly on a well-formed reply; it then gives one
      string per document, in reply order, built from the document's last
      title and last description. */
  lemma ParseReplyMeaning(reply: RedisResult, floatParses: string -> bool)
    ensures ParseReply(reply, floatParses).Ok? <==> WellFormedReply(reply, floatParses)
    ensures ParseReply(reply, floatParses).Ok? ==>
              var docs := Pairs(reply.items[1..]);
              var r := ParseReply(reply, floatParses).value;
              |r| == |docs| &&
              forall k :: 0 <= k < |docs| ==> r[k] == HitText(HitOf(docs[k].1.items))
  {
    if reply.Array? && |reply.items| >= 1 && reply.items[0].Integer? {
      ScanDocsMeaning(reply.items[1..], floatParses);
    }
  }

  // ---------------------------------------------------------------------------
  // The loops of SearchProducts

  /** The reply-processing loops of SearchProducts (the score is parsed, and
      then only printed). */
  method ParseSearchReply(reply: RedisResult, floatParses: string -> bool) returns (r: Result<seq<string>>)
    ensures r == ParseReply(reply, floatParses)
    ensures r.Ok? <==> WellFormedReply(reply, floatParses)
    ensures r.Ok? ==>
              |r.value| == |Pairs(reply.items[1..])| &&
              forall k :: 0 <= k < |r.value| ==> r.value[k] == HitText(HitOf(Pairs(reply.items[1..])[k].1.items))
  {
    ParseReplyMeaning(reply, floatParses);
    if !reply.Array? {
      return Err(MalformedReply);
    }
    var resultArray := reply.items;
    if |resultArray| == 0 || !resultArray[0].Integer? {
      return Err(MalformedReply);
    }
    var totalResults := resultArray[0].i;
    var results: seq<string> := [];
    ghost var hits: seq<Hit> := [];
    var i := 1;
    ThenNone(ScanDocs(resultArray[1..], floatParses));
    while i < |resultArray|
      invariant 1 <= i <= |resultArray|
      invariant results == Texts(hits)
      invariant ScanDocs(resultArray[1..], floatParses) == Then(hits, ScanDocs(resultArray[i..], floatParses))
    {
      if i + 1 >= |resultArray| || !resultArray[i + 1].Array? {
        return Err(MalformedReply);
      }
      var fields := resultArray[i + 1].items;
      var title, description := "", "";
      var j := 0;
      while j < |fields|
        invariant 0 <= j <= |fields|
        invariant ScanFields(fields, Hit("", ""), floatParses) == ScanFields(fields[j..], Hit(title, description), floatParses)
      {
        if j + 1 >= |fields| {
          return Err(MalformedReply);
        }
        var fieldName := AsString(fields[j]);
        var fieldValue := AsString(fields[j + 1]);
        if fieldName.Err? || fieldValue.Err? {
          return Err(MalformedReply);
        }
        if fieldName.value == Some("title") {
          title := TextOrEmpty(fieldValue.value);
        } else if fieldName.value == Some("description") {
          description := TextOrEmpty(fieldValue.value);
        } else if fieldName.value == Some("vector_score") {
          if fieldValue.value.None? || !floatParses(fieldValue.value.value) {
            return Err(MalformedReply);
          }
        }
        assert fields[j..][2..] == fields[j + 2..];
        j := j + 2;
      }
      assert fields[j..] == [];
      assert resultArray[i..][1] == resultArray[i + 1];
      assert resultArray[i..][2..] == resultArray[i + 2..];
      ThenThen(hits, Hit(title, description), ScanDocs(resultArray[i + 2..], floatParses));
      hits := hits + [Hit(title, description)];
      results := results + [HitText(Hit(title, description))];
      i := i + 2;
    }
    assert resultArray[i..] == [];
    assert hits + [] == hits;
    return Ok(results);
  }
}
