/** The translation client (main.py, Translator): one GET to the configured
    endpoint with the engine, the target language and the text, whose reply
    is turned into a translation or into nothing. */
module Translator {
  import opened Feed

  /** What the GET to the translation endpoint gives. `Reply` is an answer
      with its status code and, when the body is JSON, the value of its
      `translated_text` field (None when the field is missing or null).
      `ReplyException` is a `RequestException` raised by the request, or by
      decoding the body of a 200 answer that is not JSON. */
  datatype Reply = Reply(status: int, translatedText: Option<string>) | ReplyException

  /** The outcome of `translate` for its caller: a text, `None`, or the
      exception that leaves `translate` unhandled. */
  datatype Translation = Translated(text: string) | NoTranslation | TranslateException

  /** The result of `translate` for a given reply. */
  function Translate(reply: Reply): (r: Translation)
    ensures r.Translated? <==> reply.Reply? && reply.status == 200 && reply.translatedText.Some?
    ensures r.Translated? ==> r.text == reply.translatedText.value
    ensures r.NoTranslation? <==> reply.Reply? && (reply.status != 200 || reply.translatedText.None?)
    ensures r.TranslateException? <==> reply.ReplyException?
  {
    match reply
    case ReplyException => TranslateException
    case Reply(status, field) =>
      if status == 200 then
        match field
        case Some(text) => Translated(text)
        case None => NoTranslation
      else NoTranslation
  }
}
