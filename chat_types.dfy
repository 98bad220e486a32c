/** The chat message record shared by the widget and the service (the
    `Message` type of the widget's types module, whose file is not part of
    this model; its shape is the one the widget and the service use). */
module ChatTypes {
  import opened Js

  datatype Sender = User | Bot

  /** One transcript entry. `id` and `timestamp` come from the clock and are
      opaque here; `text` is a value because a bot message carries whatever
      the service returned as its reply. */
  datatype Message = Message(id: string, text: Value, sender: Sender, timestamp: int)
}
