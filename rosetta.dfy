/**
 * The vocabulary shared by the whole crate: sections of markdown, the translation
 * settings, progress reports and the error taxonomy.
 */
module Rosetta {

  /** A piece of markdown small enough to send to the model in one message. */
  type Subsection = string

  /** A paragraph of the document, possibly cut into several subsections. */
  type Section = seq<Subsection>

  /** Settings of one translation run. */
  datatype TranslationConfig = TranslationConfig(
    srcLang: string,
    dstLang: string,
    subject: string,
    tone: string,
    additionalInstructions: string,
    maxSectionLen: nat)

  /** The default settings: English to Russian, formal tone, 5000-byte subsections. */
  const DEFAULT_CONFIG := TranslationConfig("English", "Russian", "Unknown", "formal", "", 5000)

  /** Progress report sent after every section. */
  datatype Progress = Progress(processedSections: nat, totalSections: nat)

  /** Why a parser gave up on its input. */
  datatype ParseFailure =
    | NoBreakPoint   // a paragraph too long to cut at a sentence boundary
    | PandocFailed   // the external converter, its temporary file or its output failed

  datatype ParseError =
    | UnsupportedFormatError(supportedFormats: seq<string>)
    | OtherParseError(failure: ParseFailure)

  /** The error type of the OpenAI client library. */
  datatype OpenAIError =
    | Reqwest            // transport failure
    | ApiError           // the service answered with an error object
    | JSONDeserialize    // the answer could not be decoded
    | FileSaveError
    | FileReadError
    | StreamError
    | InvalidArgument

  /** Transport failures and undecodable answers are the transient client errors. */
  predicate Retryable(e: OpenAIError) {
    e.Reqwest? || e.JSONDeserialize?
  }

  /** The two requests the run loop makes. */
  datatype RunStep = CreateRun | RetrieveRun

  /** A failed round of the run loop that is worth starting over. */
  datatype RunFault =
    | Transport(step: RunStep, error: OpenAIError)
    | ServerFault(message: string)
    | FailedWithoutError
    | IncompleteRun(reason: string)

  /** What the error of the LLM layer carries (its message, in structured form). */
  datatype Cause =
    | ClientError(error: OpenAIError)           // a client error, passed on as is
    | RetriesExhausted(error: OpenAIError)      // a transient error after the error budget ran out
    | BackoffExhausted(error: OpenAIError)      // a transient error after the backoff schedule ended
    | RunBackoffExhausted
    | RunCancelled
    | RunExpired
    | RunInvalidPrompt(message: string)
    | RunRetriesExhausted(fault: RunFault)
    | RunRequestFailed(step: RunStep, error: OpenAIError)
    | WrongMessageCount(count: nat)
    | WrongContentCount(count: nat)
    | NonTextContent

  datatype LLMError =
    | ConnectionError(cause: Cause)
    | LlmApiError(cause: Cause)
    | InteractionError(cause: Cause)
    | OtherLlmError(cause: Cause)

  /** The kinds of `std::io::Error` the pipeline raises or distinguishes. */
  datatype IoErrorKind = NotFound | AlreadyExists | OtherIo

  datatype TranslationError =
    | ParseError(parseError: ParseError)
    | IoError(kind: IoErrorKind)
    | DatabaseError
    | LLMError(llmError: LLMError)
    | OtherError(reason: string)
}
