/** The errors the loader reports (the variants src/lib.rs constructs). */
module Errors {
  import opened Formats

  /** Why a text could not be turned into a configuration value. */
  datatype DeserializationError =
    | UnsupportedExtension(extension: string)
      /** The format library rejected the text; its message is kept as given. */
    | DecodeFailed(format: Format, message: string)

  /** Why a configuration value could not be turned into text. */
  datatype SerializationError =
    | UnsupportedExtension(extension: string)
    | EncodeFailed(format: Format, message: string)

  datatype ConfigError =
    | MissingUserDir
    | FileNotFound
    | Io
    | Deserialization(de: DeserializationError)
    | Serialization(ser: SerializationError)
}
