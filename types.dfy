/** The records and enumerations the application passes around (types.ts),
    plus the Option and Result wrappers the model uses for `null`/`undefined`
    and for thrown exceptions. */
module Types {

  datatype Option<+T> = None | Some(value: T)

  /** A JavaScript exception as the handlers see it. Only `message` is ever
      read; the empty string stands for an empty or absent message. */
  datatype ThrownError = ThrownError(message: string)

  /** A resolved promise (`Ok`) or a rejected one (`Err`). */
  datatype Result<+T> = Ok(value: T) | Err(error: ThrownError)

  /** The string union "1:1" | "3:4" | "4:3" | "9:16" | "16:9". */
  datatype AspectRatio = Square | Portrait3x4 | Landscape4x3 | Portrait9x16 | Landscape16x9
  {
    /** The string literal of the union member. */
    function Text(): string {
      match this
      case Square => "1:1"
      case Portrait3x4 => "3:4"
      case Landscape4x3 => "4:3"
      case Portrait9x16 => "9:16"
      case Landscape16x9 => "16:9"
    }
  }

  /** A catalog entry: the suffix is appended to the user's prompt. */
  datatype AIStyle = AIStyle(id: string, name: string, image: string, promptSuffix: string)

  /** One successful generation; `style` is the display name of the style used. */
  datatype GeneratedImage = GeneratedImage(id: string, url: string, prompt: string, timestamp: int, style: string)

  datatype AppState = Idle | Generating | Error | Success
}
