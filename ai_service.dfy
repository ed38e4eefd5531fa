/** The processing service: summary and key-point extraction over a text, the same over
    the text of a PDF, and question answering, each returning a result dictionary. The
    text splitter, the summarisation chain, the language model and the PDF reader are
    parameters. */
module AiService {
  import opened Wrappers
  import opened Text
  import Seqs

  const StatusSuccess: string := "success"
  const StatusError: string := "error"
  const PdfSourceType: string := "pdf"

  /** A call that returns a value or raises an exception, whose text is `message`. */
  datatype Outcome<T> = Done(value: T) | Raised(message: string)

  datatype Source = Source(kind: string, filename: string)

  /** A result dictionary; a missing key is `None`. */
  datatype Envelope = Envelope(
    status: string,
    summary: Option<string>,
    keyPoints: Option<seq<string>>,
    answer: Option<string>,
    message: Option<string>,
    source: Option<Source>)

  /** `{"status": "error", "message": str(e)}`. */
  function Failure(message: string): Envelope {
    Envelope(StatusError, None, None, None, Some(message), None)
  }

  /** The foreign calls behind the service. */
  datatype Backend = Backend(
    split: string -> seq<string>,               // the text splitter: the documents' contents
    summarize: seq<string> -> Outcome<string>,  // the summarisation chain over the documents
    extractPoints: string -> Outcome<string>,   // the model on the key-point prompt for a text
    answer: (string, string) -> Outcome<string>) // the model on the question prompt for (context, question)

  /** Each line stripped. */
  function StripAll(lines: seq<string>): (r: seq<string>)
    ensures |r| == |lines|
    ensures forall i :: 0 <= i < |r| ==> r[i] == Strip(lines[i])
  {
    seq(|lines|, i requires 0 <= i < |lines| => Strip(lines[i]))
  }

  /** The lines of the model's reply once the reply itself is stripped. */
  function ReplyLines(content: string): (r: seq<string>)
    ensures |r| >= 1
  {
    Split(Strip(content), '\n')
  }

  predicate NonBlank(p: string) {
    p != ""
  }

  /** `_extract_key_points`' parse: the lines of the reply, stripped, without the blank ones,
      in their order. */
  function ParseKeyPoints(content: string): (r: seq<string>)
    ensures forall x :: x in r <==> x in StripAll(ReplyLines(content)) && x != ""
    ensures Seqs.IsSubsequence(r, StripAll(ReplyLines(content)))
    ensures |r| <= |ReplyLines(content)|
    ensures forall x :: multiset(r)[x] == if x != "" then multiset(StripAll(ReplyLines(content)))[x] else 0
  {
    Seqs.FilterIsSubsequence(StripAll(ReplyLines(content)), NonBlank);
    Seqs.FilterCount(StripAll(ReplyLines(content)), NonBlank);
    Seqs.Filter(StripAll(ReplyLines(content)), NonBlank)
  }

  /** No key point is empty or starts or ends with white space; stripping one again
      changes nothing. */
  lemma KeyPointsAreStripped(content: string)
    ensures forall p :: p in ParseKeyPoints(content) ==>
      p != "" && !IsPySpace(p[0]) && !IsPySpace(p[|p| - 1]) && Strip(p) == p
  {
    forall p | p in ParseKeyPoints(content)
      ensures p != "" && !IsPySpace(p[0]) && !IsPySpace(p[|p| - 1]) && Strip(p) == p
    {
      StrippedLineIsClean(ReplyLines(content), p);
    }
  }

  lemma StrippedLineIsClean(lines: seq<string>, x: string)
    requires x in StripAll(lines)
    ensures (x == [] || (!IsPySpace(x[0]) && !IsPySpace(x[|x| - 1]))) && Strip(x) == x
  {
    var k :| 0 <= k < |lines| && StripAll(lines)[k] == x;
    StripClean(lines[k]);
  }

  /** A blank line of the reply yields no point; the others yield one point each, in order. */
  lemma BlankLineDropped()
    ensures ParseKeyPoints("1. a\n\n2. b") == ["1. a", "2. b"]
  {
    ExampleReplyLines();
    ExampleStripped();
    ExampleFiltered();
  }

  lemma ExampleStripped()
    ensures StripAll(["1. a", "", "2. b"]) == ["1. a", "", "2. b"]
  {
    StripUnchanged("1. a");
    StripUnchanged("2. b");
  }

  lemma ExampleFiltered()
    ensures Seqs.Filter(["1. a", "", "2. b"], NonBlank) == ["1. a", "2. b"]
  {
    var lines := ["1. a", "", "2. b"];
    assert lines[1..] == ["", "2. b"] && lines[1..][1..] == ["2. b"];
  }

  lemma ExampleReplyLines()
    ensures ReplyLines("1. a\n\n2. b") == ["1. a", "", "2. b"]
  {
    var c := "1. a\n\n2. b";
    var lines := ["1. a", "", "2. b"];
    StripUnchanged(c);
    SplitJoin(lines, '\n');
    assert Join(lines, '\n') == c;
  }

  lemma StripUnchanged(s: string)
    requires s != [] && !IsPySpace(s[0]) && !IsPySpace(s[|s| - 1])
    ensures Strip(s) == s
  {
  }

  /** `_generate_summary`: the chain's reply, stripped. */
  function GenerateSummary(b: Backend, docs: seq<string>): (r: Outcome<string>)
    ensures b.summarize(docs).Raised? ==> r == b.summarize(docs)
    ensures b.summarize(docs).Done? ==> r == Done(Strip(b.summarize(docs).value))
    ensures r.Done? ==> r.value == [] || (!IsPySpace(r.value[0]) && !IsPySpace(r.value[|r.value| - 1]))
  {
    match b.summarize(docs)
    case Raised(m) => Raised(m)
    case Done(s) => Done(Strip(s))
  }

  /** `_extract_key_points`: the model is asked about the documents joined by spaces, and
      its reply parsed. */
  function ExtractKeyPoints(b: Backend, docs: seq<string>): (r: Outcome<seq<string>>)
    ensures var reply := b.extractPoints(Join(docs, ' '));
      && (reply.Raised? ==> r == Raised(reply.message))
      && (reply.Done? ==> r == Done(ParseKeyPoints(reply.value)))
  {
    match b.extractPoints(Join(docs, ' '))
    case Raised(m) => Raised(m)
    case Done(c) => Done(ParseKeyPoints(c))
  }

  /** `process_text`: the summary, the key points and status "success", or, when either
      step raises, status "error" with the first exception's text. */
  function ProcessText(b: Backend, text: string): (r: Envelope)
    ensures r.status == StatusSuccess <==>
      GenerateSummary(b, b.split(text)).Done? && ExtractKeyPoints(b, b.split(text)).Done?
    ensures r.status == StatusSuccess ==>
      && r.summary == Some(GenerateSummary(b, b.split(text)).value)
      && r.keyPoints == Some(ExtractKeyPoints(b, b.split(text)).value)
      && r.message.None? && r.answer.None? && r.source.None?
    ensures r.status != StatusSuccess ==> r.status == StatusError && r.summary.None? && r.keyPoints.None? && r.message.Some?
    ensures b.summarize(b.split(text)).Raised? ==> r == Failure(b.summarize(b.split(text)).message)
    ensures r.summary.Some? ==> var s := r.summary.value; s == [] || (!IsPySpace(s[0]) && !IsPySpace(s[|s| - 1]))
    ensures b.summarize(b.split(text)).Done? && b.extractPoints(Join(b.split(text), ' ')).Raised? ==>
      r == Failure(b.extractPoints(Join(b.split(text), ' ')).message)
  {
    var docs := b.split(text);
    match GenerateSummary(b, docs)
    case Raised(m) => Failure(m)
    case Done(summary) =>
      match ExtractKeyPoints(b, docs)
      case Raised(m) => Failure(m)
      case Done(points) => Envelope(StatusSuccess, Some(summary), Some(points), None, None, None)
  }

  /** `_extract_text_from_pdf`: the pages' texts appended one after another. */
  method ExtractTextFromPdf(pages: seq<string>) returns (text: string)
    ensures text == Seqs.Flatten(pages)
  {
    text := "";
    var i := 0;
    while i < |pages|
      invariant 0 <= i <= |pages|
      invariant text == Seqs.Flatten(pages[..i])
    {
      assert pages[..i + 1][..i] == pages[..i];
      text := text + pages[i];
      i := i + 1;
    }
    assert pages[..|pages|] == pages;
  }

  /** The PDF text holds the pages in page order, with nothing between them. */
  lemma PdfPagesInOrder(before: seq<string>, page: string, after: seq<string>)
    ensures Seqs.Flatten(before + [page] + after) == Seqs.Flatten(before) + page + Seqs.Flatten(after)
  {
    Seqs.FlattenAppend(before + [page], after);
    Seqs.FlattenAppend(before, [page]);
    assert Seqs.Flatten([page]) == page;
  }

  /** `process_pdf`: the text of the pages is processed and the source is added to that
      result, whatever its status; a failure to store or read the file gives an error
      without a source. `read` is the outcome of writing and reading the file: its pages. */
  method ProcessPdf(b: Backend, read: Outcome<seq<string>>, filename: string) returns (result: Envelope)
    ensures read.Raised? ==> result == Failure(read.message)
    ensures read.Done? ==>
      result == ProcessText(b, Seqs.Flatten(read.value)).(source := Some(Source(PdfSourceType, filename)))
  {
    if read.Raised? {
      return Failure(read.message);
    }
    var text := ExtractTextFromPdf(read.value);
    result := ProcessText(b, text);
    result := result.(source := Some(Source(PdfSourceType, filename)));
  }

  /** `answer_question`: the model's answer with status "success", or the error. */
  function AnswerQuestion(b: Backend, query: string, context: string): (r: Envelope)
    ensures r.status == StatusSuccess <==> b.answer(context, query).Done?
    ensures r.status == StatusSuccess ==> r.answer == Some(b.answer(context, query).value)
    ensures r.status != StatusSuccess ==> r == Failure(b.answer(context, query).message)
  {
    match b.answer(context, query)
    case Done(a) => Envelope(StatusSuccess, None, None, Some(a), None, None)
    case Raised(m) => Failure(m)
  }
}
