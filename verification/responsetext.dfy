/** The text-extraction step the three provider services share: strip
    Markdown code fences, trim, cut out the text from the first '{' to the
    last '}', parse it, and look up an array member of the parsed object.
    `JSON.parse` is a parameter; the HTTP reply is an input. */
module ResponseText {
  import opened Wrappers
  import opened JsText
  import opened Json

  /** `JSON.parse`: a value, or the message of the SyntaxError it throws. */
  type JsonParser = string -> Result<JsonValue, string>

  /** What a provider call leaves to the parser. `Failed` is every error
      raised before the generated text is read: the HTTP call itself
      (network, timeout, non-success status) or a reply envelope without the
      expected nesting; `message` is the text the service reports for it.
      `Delivered` carries the value found where the service looks for the
      generated text, `None` when it is undefined there. */
  datatype Reply = Failed(message: string) | Delivered(text: Option<JsonValue>)

  const FenceJson: string := "```json"
  const Fence: string := "```"

  /** `response.replace(/```json/g, '').replace(/```/g, '').trim()` */
  function Clean(response: string): (r: string)
    ensures !Contains(r, Fence)
    ensures r != [] ==> !IsJsWhitespace(r[0]) && !IsJsWhitespace(r[|r| - 1])
    ensures '`' !in response ==> r == Trim(response)
    ensures forall c :: c !in FenceJson && !IsJsWhitespace(c) ==> (c in r <==> c in response)
  {
    var unfenced := RemoveAll(RemoveAll(response, FenceJson), Fence);
    TrimmedHasNoFence(unfenced, RemoveAll(response, FenceJson));
    CleanKeeps(response);
    UnfencedWithoutBackticks(response);
    Trim(unfenced)
  }

  /** After fence removal no "```" is left, and trimming cannot make one. */
  lemma TrimmedHasNoFence(unfenced: string, once: string)
    requires unfenced == RemoveAll(once, Fence)
    ensures !Contains(Trim(unfenced), Fence)
  {
    NoFenceAfterRemoval(once);
    SliceKeepsNoOccurrence(unfenced, Trim(unfenced), Fence);
  }

  /** A reply without backticks holds no fence to remove. */
  lemma UnfencedWithoutBackticks(response: string)
    ensures '`' !in response ==> RemoveAll(RemoveAll(response, FenceJson), Fence) == response
  {
    if '`' !in response {
      AbsentFirstChar(response, FenceJson);
      AbsentFirstChar(response, Fence);
    }
  }

  /** Fence removal and trimming drop no character other than those of the
      fences and whitespace. */
  lemma CleanKeeps(response: string)
    ensures var r := Trim(RemoveAll(RemoveAll(response, FenceJson), Fence));
      forall c :: c !in FenceJson && !IsJsWhitespace(c) ==> (c in r <==> c in response)
  {
    var once := RemoveAll(response, FenceJson);
    var twice := RemoveAll(once, Fence);
    forall c | c !in FenceJson && !IsJsWhitespace(c)
      ensures c in Trim(twice) <==> c in response
    {
      RemoveAllKeeps(response, FenceJson, c);
      assert c !in Fence by { assert Fence == FenceJson[..3]; }
      RemoveAllKeeps(once, Fence, c);
      TrimKeeps(twice, c);
    }
  }

  /** The reply the prompts ask for, wrapped the way models usually wrap
      it: a "```json" line, the body, a closing "```" line. Cleaning gives
      back the body exactly. */
  lemma FencedReply(body: string)
    requires '`' !in body
    requires body != [] ==> !IsJsWhitespace(body[0]) && !IsJsWhitespace(body[|body| - 1])
    ensures Clean(FenceJson + "\n" + body + "\n" + Fence) == body
  {
    var a := "\n" + body + "\n";
    var tail := a + Fence;
    var s := FenceJson + "\n" + body + "\n" + Fence;
    assert s == FenceJson + tail;
    assert s[..|FenceJson|] == FenceJson && s[|FenceJson|..] == tail;
    assert RemoveAll(s, FenceJson) == RemoveAll(tail, FenceJson);
    assert '`' !in a;
    AbsentFirstChar(tail, FenceJson);
    RemoveAllTrailing(a, Fence);
    TrimLines(body);
  }

  /** A character other than a backtick at the front survives fence removal. */
  lemma FrontKept(t: string)
    requires |t| > 0 && t[0] != '`'
    ensures |RemoveAll(t, Fence)| > 0 && RemoveAll(t, Fence)[0] == t[0]
  {
    if |t| >= |Fence| {
      assert t[..|Fence|][0] != Fence[0];
    }
  }

  /** A backtick that does not start a fence is followed, after removal of
      the rest, by fewer than two backticks. */
  lemma LoneBacktick(s: string)
    requires |s| >= |Fence| && s[0] == '`' && s[..|Fence|] != Fence
    ensures var t := RemoveAll(s[1..], Fence); !(|t| >= 2 && t[0] == '`' && t[1] == '`')
  {
    var u := s[1..];
    if u[0] != '`' {
      FrontKept(u);
    } else {
      assert s[2] != '`' by { assert s[..3] == [s[0], s[1], s[2]]; }
      if |u| >= |Fence| {
        assert u[..|Fence|] != Fence by { assert u[..|Fence|][1] == s[2]; }
        assert RemoveAll(u, Fence) == [u[0]] + RemoveAll(u[1..], Fence);
      }
      FrontKept(u[1..]);
    }
  }

  /** Removing every "```" left to right leaves none behind: a run of
      backticks loses whole triples only, and what remains of it is shorter
      than three and still bounded by the same characters. */
  lemma {:induction false} NoFenceAfterRemoval(s: string)
    ensures !Contains(RemoveAll(s, Fence), Fence)
    decreases |s|
  {
    if |s| < |Fence| {
    } else if s[..|Fence|] == Fence {
      NoFenceAfterRemoval(s[|Fence|..]);
    } else {
      var t := RemoveAll(s[1..], Fence);
      var r := [s[0]] + t;
      assert RemoveAll(s, Fence) == r;
      NoFenceAfterRemoval(s[1..]);
      forall i | OccursAt(r, Fence, i) ensures false {
        if i > 0 {
          OccursInTail(s[0], t, Fence, i);
        } else {
          assert r[..3] == [s[0], t[0], t[1]];
          LoneBacktick(s);
        }
      }
    }
  }

  /** A slice of a string free of `p` is free of `p`. */
  lemma SliceKeepsNoOccurrence(s: string, r: string, p: string)
    requires !Contains(s, p)
    requires exists k :: OccursAt(s, r, k)
    ensures !Contains(r, p)
  {
    var k :| OccursAt(s, r, k);
    forall i | OccursAt(r, p, i) ensures false {
      OccursWithin(s, r, p, k, i);
    }
  }

  /** The text handed to `JSON.parse`: from the first '{' of the cleaned
      reply through its last '}', None when either brace is missing. */
  function Candidate(response: string): (r: Option<string>)
    ensures r.None? <==> '{' !in Clean(response) || '}' !in Clean(response)
    ensures '{' !in response || '}' !in response ==> r.None?
  {
    CleanKeepsBraces(response);
    BraceSlice(Clean(response))
  }

  /** Cleaning neither adds nor removes a brace. */
  lemma CleanKeepsBraces(response: string)
    ensures '{' in Clean(response) <==> '{' in response
    ensures '}' in Clean(response) <==> '}' in response
  {
    var once := RemoveAll(response, FenceJson);
    var twice := RemoveAll(once, Fence);
    assert Clean(response) == Trim(twice);
    assert '{' !in FenceJson && '}' !in FenceJson && '{' !in Fence && '}' !in Fence;
    RemoveAllKeeps(response, FenceJson, '{');
    RemoveAllKeeps(once, Fence, '{');
    TrimKeeps(twice, '{');
    RemoveAllKeeps(response, FenceJson, '}');
    RemoveAllKeeps(once, Fence, '}');
    TrimKeeps(twice, '}');
  }

  /** `c.substring(c.indexOf('{'), c.lastIndexOf('}') + 1)` after the
      check that both braces are present. When the last '}' comes before
      the first '{', JavaScript's `substring` swaps its bounds and the text
      between them, which holds no brace at all, is what gets parsed. */
  function BraceSlice(c: string): (r: Option<string>)
    ensures r.None? <==> '{' !in c || '}' !in c
    ensures r.Some? && IndexOf(c, '{') < LastIndexOf(c, '}') ==>
      && r.value == c[IndexOf(c, '{')..LastIndexOf(c, '}') + 1]
      && r.value[0] == '{' && r.value[|r.value| - 1] == '}'
    ensures r.Some? && LastIndexOf(c, '}') < IndexOf(c, '{') ==>
      '{' !in r.value && '}' !in r.value
  {
    var start := IndexOf(c, '{');
    var end := LastIndexOf(c, '}') + 1;
    if start == -1 || end == 0 then
      None
    else
      if end <= start then
        SwappedSliceHasNoBrace(c, start, end);
        Some(Substring(c, start, end))
      else
        Some(Substring(c, start, end))
  }

  /** Between the last '}' and the first '{' there is no brace. */
  lemma SwappedSliceHasNoBrace(c: string, start: int, end: int)
    requires 0 <= start == IndexOf(c, '{') && 0 < end == LastIndexOf(c, '}') + 1 && end <= start
    ensures '{' !in c[end..start] && '}' !in c[end..start]
  {
    assert c[..start][end..] == c[end..start];
    assert c[end..][..start - end] == c[end..start];
  }

  /** Why a reply yields no array. */
  datatype ParseFailure =
    | NoJsonStructure           // the cleaned text lacks '{' or '}'
    | SyntaxError(message: string)
    | NullParsed                // the parsed value is null: reading a member throws
    | NotAnArray                // the member is missing, falsy or not an array

  /** Cut out, parse and check the shape `{ key: [ ... ] }`. */
  function ExtractArray(response: string, key: string, parse: JsonParser): (r: Result<seq<JsonValue>, ParseFailure>)
    ensures '{' !in response || '}' !in response ==> r == Failure(NoJsonStructure)
    ensures r.Success? ==>
      && Candidate(response).Some? && parse(Candidate(response).value).Success?
      && Member(parse(Candidate(response).value).value, key) == Some(Arr(r.value))
  {
    ArrayMember(Candidate(response), key, parse)
  }

  /** Parse the cut-out text and check its `key` member: it must be truthy
      and an array (`!parsed[key] || !Array.isArray(parsed[key])` rejects).
      Nothing about the array's elements is checked. */
  function ArrayMember(candidate: Option<string>, key: string, parse: JsonParser): (r: Result<seq<JsonValue>, ParseFailure>)
    ensures candidate.None? ==> r == Failure(NoJsonStructure)
    ensures candidate.Some? && parse(candidate.value).Failure? ==>
      r == Failure(SyntaxError(parse(candidate.value).error))
    ensures r.Success? <==>
      && candidate.Some?
      && parse(candidate.value).Success?
      && var m := Member(parse(candidate.value).value, key); m.Some? && m.value.Arr?
    ensures r.Success? ==> Member(parse(candidate.value).value, key) == Some(Arr(r.value))
  {
    match candidate
    case None => Failure(NoJsonStructure)
    case Some(text) =>
      match parse(text)
      case Failure(message) => Failure(SyntaxError(message))
      case Success(parsed) =>
        if parsed == Null then Failure(NullParsed)
        else
          var m := Member(parsed, key);
          if m.None? || !Truthy(m.value) || !m.value.Arr? then Failure(NotAnArray)
          else Success(m.value.items)
  }

  /** The array member `key` of the JSON object in a delivered text, when
      the text is a string and every step of the extraction succeeds. */
  function ReplyArray(text: Option<JsonValue>, key: string, parse: JsonParser): (r: Option<seq<JsonValue>>)
    ensures r.Some? <==> text.Some? && text.value.Str? && ExtractArray(text.value.s, key, parse).Success?
    ensures r.Some? ==> r.value == ExtractArray(text.value.s, key, parse).value
  {
    if text.Some? && text.value.Str? then
      match ExtractArray(text.value.s, key, parse)
      case Success(items) => Some(items)
      case Failure(_) => None
    else None
  }

  /** A text without braces yields no array, whatever the parser does. */
  lemma NoCandidateNoArray(text: string, key: string, parse: JsonParser)
    requires Candidate(text).None?
    ensures ReplyArray(Some(Str(text)), key, parse).None?
  {
  }

  /** A cleaned reply that is one object from its first to its last
      character is handed to the parser whole. */
  lemma WholeObjectIsCandidate(c: string)
    requires |c| > 0 && c[0] == '{' && c[|c| - 1] == '}'
    ensures BraceSlice(c) == Some(c)
  {
    assert c[0..|c|] == c;
  }
}
