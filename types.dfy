/** The data of the deep-think engine (prisma/types.ts), with the JSON values
    that the planning call returns. */
module Types {

  datatype Option<+T> = None | Some(value: T) {
    function GetOr(default: T): T {
      match this
      case Some(v) => v
      case None => default
    }
  }

  /** Opaque description of an error thrown by the generative-AI SDK. */
  datatype SdkError = SdkError(detail: string)

  /** A value returned by an operation that may throw instead. */
  datatype Result<+T> = Ok(value: T) | Thrown(error: SdkError)

  /** A JavaScript number, represented by the text `String(x)` gives for it.
      The core never computes with numbers: it copies them and prints them. */
  datatype Number = Number(shown: string)

  /** A value produced by `JSON.parse`. Object keys are unique (a later
      duplicate key overrides an earlier one, as `JSON.parse` does). */
  datatype Json =
    | JNull
    | JBool(b: bool)
    | JNum(n: Number)
    | JStr(s: string)
    | JArr(items: seq<Json>)
    | JObj(fields: map<string, Json>)

  /** A property read in JavaScript: `None` is `undefined`. */
  type JsValue = Option<Json>

  /** `AppState`: the run-level state of the engine. */
  datatype AppState = Idle | Analyzing | ExpertsWorking | Synthesizing | Completed

  /** `ExpertResult.status`. */
  datatype ExpertStatus = Pending | Thinking | Completed | Error {
    predicate Terminal() { Completed? || Error? }
  }

  /** `ExpertConfig`: what identifies an expert and what it is asked. */
  datatype ExpertConfig = ExpertConfig(
    id: string, role: JsValue, description: JsValue, temperature: JsValue, prompt: JsValue)

  /** `ExpertResult`: an `ExpertConfig` plus the fields the lifecycle fills
      in. The fields copied from the planning payload keep whatever JSON value the payload had there,
      because the payload is cast, never checked, element by element. */
  datatype ExpertResult = ExpertResult(
    id: string,
    role: JsValue,
    description: JsValue,
    temperature: JsValue,
    prompt: JsValue,
    status: ExpertStatus,
    content: JsValue,
    thoughts: JsValue,
    startTime: Option<int>,
    endTime: Option<int>)
  {
    function Config(): ExpertConfig {
      ExpertConfig(id, role, description, temperature, prompt)
    }
  }

  /** `ChatMessage.role`. */
  datatype Speaker = User | Model

  /** The two fields of `ChatMessage` that the engine reads. */
  datatype ChatMessage = ChatMessage(role: Speaker, content: string)
}
