/**
 * The two request handlers and the process-wide state they share: the current vector store
 * and the current conversation chain, both `None` when the process starts.  `/upload`
 * validates the file name, builds a new store through the retry wrapper and then a new chain
 * over it, writing the two globals one after the other.  `/chat` refuses to run until both
 * are set, then asks the chain through the retry wrapper and projects its sources.
 *
 * The store and the chain are opaque (`Index`, `Chain`); everything the third-party
 * libraries do is a parameter: `prepared` is what saving, loading and splitting the PDF
 * produced, `fromDocuments(splits)(i)` the outcome of the `i`-th call of the store builder,
 * `fromLlm(store)` the outcome of building the chain, `invoke(chain, q)(i)` the outcome of
 * the `i`-th call of the chain.
 */
module Session {
  import opened Options
  import opened Text
  import opened RateLimit
  import opened Retry
  import opened Sources

  const PdfSuffix := ".pdf"
  const UploadSuccessMessage := "PDF processed successfully"
  const InvalidFileDetail := "Only PDF files are allowed"
  const NotReadyDetail := "Please upload a PDF file first"

  /** The chain's input: the new question and the caller's history (`None` when sent as null). */
  datatype Question = Question(message: string, chatHistory: Option<seq<seq<string>>>)

  /** The chain's output: the answer and, when present, the source documents it used. */
  datatype ChainAnswer = ChainAnswer(answer: string, sourceDocuments: Option<seq<SourceDocument>>)

  /** What a handler sends back. */
  datatype Reply =
    | Processed(message: string)
    | Answered(response: string, sourceDocuments: seq<SourceEntry>)
      /** raised with exactly this status and detail */
    | Failed(error: HttpException)
      /** the retry wrapper raised this; the handler's `except` then re-raises it in a form
          derived from its text, which is not modelled */
    | RetryFailed(error: HttpException)

  class AppState<Index, Chain> {
    var vectorStore: Option<Index>
    var conversationChain: Option<Chain>

    /** A chain is only ever built over a store, so a chain never exists without one. */
    ghost predicate Valid()
      reads this
    {
      conversationChain.Some? ==> vectorStore.Some?
    }

    /** Module start-up: `vector_store = None`, `conversation_chain = None`. */
    constructor ()
      ensures Valid()
      ensures vectorStore == None && conversationChain == None
    {
      vectorStore := None;
      conversationChain := None;
    }

    /** Both globals are set: the guard of `/chat`. */
    predicate Ready()
      reads this
    {
      vectorStore.Some? && conversationChain.Some?
    }

    /**
     * `/upload`.  A name not ending in `.pdf` (case-sensitive) is refused with 400 before
     * anything else happens.  The store is then written as soon as the wrapper returns it,
     * and the chain only once it is built: if building the chain fails, the new store stays
     * in place beside the previous chain.
     */
    method Upload<Splits>(filename: string, prepared: Outcome<Splits>,
                          fromDocuments: Splits -> nat -> Outcome<Index>,
                          fromLlm: Index -> Outcome<Chain>)
      returns (reply: Reply)
      requires Valid()
      modifies this
      ensures Valid()
      ensures reply.Processed? ==> Ready() && reply.message == UploadSuccessMessage
      ensures !EndsWith(filename, PdfSuffix) ==>
                reply == Failed(HttpException(400, InvalidFileDetail)) && unchanged(this)
      ensures EndsWith(filename, PdfSuffix) && prepared.Err? ==>
                reply == Failed(ClassifyFailure(prepared.msg)) && unchanged(this)
      ensures EndsWith(filename, PdfSuffix) && prepared.Ok? ==>
                var t := Retried(fromDocuments(prepared.value), DefaultMaxRetries, DefaultInitialDelay);
                (t.result.Raised? ==> reply == RetryFailed(t.result.error) && unchanged(this)) &&
                (t.result.Returned? ==>
                   vectorStore == Some(t.result.value) &&
                   match fromLlm(t.result.value)
                   case Ok(chain) =>
                     conversationChain == Some(chain) && reply == Processed(UploadSuccessMessage)
                   case Err(msg) =>
                     conversationChain == old(conversationChain) && reply == Failed(ClassifyFailure(msg)))
    {
      if !EndsWith(filename, PdfSuffix) {
        return Failed(HttpException(400, InvalidFileDetail));
      }
      match prepared {
        case Err(msg) =>
          return Failed(ClassifyFailure(msg));
        case Ok(splits) =>
          var res, _, _ := ProcessWithRetry(fromDocuments(splits), DefaultMaxRetries, DefaultInitialDelay);
          match res {
            case Raised(e) =>
              return RetryFailed(e);
            case ReturnedNone =>
              // the wrapper returns None only when it makes no attempt, and 3 attempts are allowed
              assert false;
            case Returned(store) =>
              vectorStore := Some(store);
              match fromLlm(store) {
                case Err(msg) =>
                  return Failed(ClassifyFailure(msg));
                case Ok(chain) =>
                  conversationChain := Some(chain);
                  return Processed(UploadSuccessMessage);
              }
          }
      }
    }

    /**
     * `/chat`.  Unless both globals are set it refuses with 400 and calls nothing.  Otherwise
     * `calls` is how many times it called the chain, and a returned answer is passed on with
     * its sources projected.
     */
    method Chat(question: Question, invoke: (Chain, Question) -> nat -> Outcome<ChainAnswer>)
      returns (reply: Reply, calls: nat)
      ensures !Ready() ==> reply == Failed(HttpException(400, NotReadyDetail)) && calls == 0
      ensures Ready() ==>
                var t := Retried(invoke(conversationChain.value, question), DefaultMaxRetries, DefaultInitialDelay);
                calls == t.calls &&
                (t.result.Returned? ==>
                   reply == Answered(t.result.value.answer, ProjectResponse(t.result.value.sourceDocuments))) &&
                (t.result.Raised? ==> reply == RetryFailed(t.result.error))
    {
      if vectorStore.None? || conversationChain.None? {
        return Failed(HttpException(400, NotReadyDetail)), 0;
      }
      var res, n, _ := ProcessWithRetry(invoke(conversationChain.value, question), DefaultMaxRetries, DefaultInitialDelay);
      calls := n;
      match res {
        case Returned(response) =>
          reply := Answered(response.answer, ProjectResponse(response.sourceDocuments));
        case Raised(e) =>
          reply := RetryFailed(e);
        case ReturnedNone =>
          // as in Upload, the wrapper cannot return None with 3 attempts allowed
          assert false;
      }
    }
  }

  /** Before any upload, `/chat` refuses whatever it is asked and calls nothing. */
  method ChatBeforeUpload<Index, Chain>(question: Question,
                                        invoke: (Chain, Question) -> nat -> Outcome<ChainAnswer>)
    returns (reply: Reply, calls: nat)
    ensures reply == Failed(HttpException(400, NotReadyDetail)) && calls == 0
  {
    var app := new AppState<Index, Chain>();
    reply, calls := app.Chat(question, invoke);
  }

  /** A first upload whose store is built but whose chain fails leaves the store set and the
      chain unset, so `/chat` still refuses: after a failed first upload the half-written
      state is not served. */
  method ChatAfterHalfUpload<Splits, Index, Chain>(splits: Splits, store: Index, msg: string,
                                                  question: Question,
                                                  invoke: (Chain, Question) -> nat -> Outcome<ChainAnswer>)
    returns (uploaded: Reply, reply: Reply, calls: nat)
    ensures uploaded == Failed(ClassifyFailure(msg))
    ensures reply == Failed(HttpException(400, NotReadyDetail)) && calls == 0
  {
    var app := new AppState<Index, Chain>();
    uploaded := app.Upload("report.pdf", Ok(splits), _ => _ => Ok(store), _ => Err(msg));
    assert app.vectorStore == Some(store) && app.conversationChain == None;
    reply, calls := app.Chat(question, invoke);
  }

  /** After an upload that succeeds, `/chat` asks the new chain. */
  method ChatAfterUpload<Splits, Index, Chain(==)>(splits: Splits, store: Index, chain: Chain,
                                              question: Question, answer: ChainAnswer)
    returns (uploaded: Reply, reply: Reply, calls: nat)
    ensures uploaded == Processed(UploadSuccessMessage)
    ensures reply == Answered(answer.answer, ProjectResponse(answer.sourceDocuments)) && calls == 1
  {
    var app := new AppState<Index, Chain>();
    uploaded := app.Upload("report.pdf", Ok(splits), _ => _ => Ok(store), _ => Ok(chain));
    var invoke := (c: Chain, q: Question) => (i: nat) => if c == chain then Ok(answer) else Err("wrong chain");
    reply, calls := app.Chat(question, invoke);
  }

  /** The suffix test is case-sensitive: `X.PDF` is refused with 400 and the state stays as
      it was, so a later `/chat` still refuses. */
  method UploadUpperCaseSuffix<Splits, Index, Chain>(prepared: Outcome<Splits>,
                                                    fromDocuments: Splits -> nat -> Outcome<Index>,
                                                    fromLlm: Index -> Outcome<Chain>,
                                                    question: Question,
                                                    invoke: (Chain, Question) -> nat -> Outcome<ChainAnswer>)
    returns (uploaded: Reply, reply: Reply, calls: nat)
    ensures uploaded == Failed(HttpException(400, InvalidFileDetail))
    ensures reply == Failed(HttpException(400, NotReadyDetail)) && calls == 0
  {
    var app := new AppState<Index, Chain>();
    assert !EndsWith("X.PDF", PdfSuffix) by {
      assert "X.PDF"[1..] != PdfSuffix by { assert "X.PDF"[1..][1] != PdfSuffix[1]; }
    }
    uploaded := app.Upload("X.PDF", prepared, fromDocuments, fromLlm);
    reply, calls := app.Chat(question, invoke);
  }

  /** A second successful upload replaces the first document: `/chat` then asks only the
      second chain. */
  method SecondUploadReplaces<Splits, Index, Chain(==)>(splits1: Splits, store1: Index, chain1: Chain,
                                                       splits2: Splits, store2: Index, chain2: Chain,
                                                       question: Question, answer: ChainAnswer)
    returns (reply: Reply)
    requires chain1 != chain2
    ensures reply == Answered(answer.answer, ProjectResponse(answer.sourceDocuments))
  {
    var app := new AppState<Index, Chain>();
    var first := app.Upload("one.pdf", Ok(splits1), _ => _ => Ok(store1), _ => Ok(chain1));
    var second := app.Upload("two.pdf", Ok(splits2), _ => _ => Ok(store2), _ => Ok(chain2));
    assert app.vectorStore == Some(store2) && app.conversationChain == Some(chain2);
    var invoke := (c: Chain, q: Question) => (i: nat) => if c == chain2 then Ok(answer) else Err("stale chain");
    var calls;
    reply, calls := app.Chat(question, invoke);
  }

  /** A successful upload followed by one whose chain fails leaves the second store beside
      the first chain, and `/chat` serves that mixed state: it answers through the first
      chain while `vectorStore` holds the second store. */
  method MixedStateServed<Splits, Index, Chain(==)>(splits1: Splits, store1: Index, chain1: Chain,
                                                   splits2: Splits, store2: Index, msg: string,
                                                   question: Question, answer: ChainAnswer)
    returns (second: Reply, storeAfter: Option<Index>, reply: Reply)
    ensures second == Failed(ClassifyFailure(msg))
    ensures storeAfter == Some(store2)
    ensures reply == Answered(answer.answer, ProjectResponse(answer.sourceDocuments))
  {
    var app := new AppState<Index, Chain>();
    var first := app.Upload("one.pdf", Ok(splits1), _ => _ => Ok(store1), _ => Ok(chain1));
    second := app.Upload("two.pdf", Ok(splits2), _ => _ => Ok(store2), _ => Err(msg));
    assert app.vectorStore == Some(store2) && app.conversationChain == Some(chain1);
    storeAfter := app.vectorStore;
    var invoke := (c: Chain, q: Question) => (i: nat) => if c == chain1 then Ok(answer) else Err("other chain");
    var calls;
    reply, calls := app.Chat(question, invoke);
  }
}
