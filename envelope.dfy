/**
 * The message envelope of the consumer: the typed payload `MessageData`
 * (ConsumerWorker.cs:10-15) and the outcome of decoding a delivered body.
 */
module Envelope {

  /** C#'s `int`: a 32-bit two's-complement integer. */
  type Int32 = x: int | -0x8000_0000 <= x < 0x8000_0000

  /** The payload class; all three members are `required`. */
  datatype MessageData = MessageData(message: string, messageType: string, messageID: Int32)

  /**
   * What `JsonSerializer.Deserialize<MessageData>` makes of the UTF-8 body:
   * the JSON literal `null` gives a null reference, a complete object gives
   * the data, and malformed JSON or a missing required member throws.
   */
  datatype Decoded = DecodeNull | DecodeOk(data: MessageData) | DecodeThrows

  /**
   * A message as it sits in the queue. Decoding is a deterministic function
   * of the body, so the message carries the decode outcome of its body; a
   * redelivered message therefore decodes the same way every time.
   */
  datatype Message = Message(payload: Decoded)
}
