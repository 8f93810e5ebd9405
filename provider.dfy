/**
 * The language-model provider as the model sees it: each chat-completion
 * call either answers with message content or raises.
 */
module Provider {

  /**
   * One provider call: `Answer` carries `resp.choices[0].message.content`
   * (a `None` content behaves as the empty string everywhere it is used),
   * `Failure` carries the text of the exception the client raised.
   */
  datatype Reply = Answer(content: string) | Failure(error: string)
}
