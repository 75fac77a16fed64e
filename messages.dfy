/**
 * Chats, messages and the pure message builders of the chat front end:
 * the chat-title rule, the keyword-driven chart request (`createBotMessages`)
 * and the bot messages built from a SQL-generation response.
 * Ids and timestamps come from the clock in the front end; here they are parameters.
 */
module Messages {
  import opened Wrappers
  import opened Strings

  datatype Sender = User | Bot

  datatype Message = Message(id: int, text: string, timestamp: int, sender: Sender)

  datatype Chat = Chat(id: int, name: string, messages: seq<Message>)

  const DefaultChatName: string := "Novo Chat"
  const TitleLimit: nat := 30
  const Ellipsis: string := "..."

  /** `createNewChat()`: an empty chat with the default name, identified by the creation time. */
  function NewChat(now: int): (c: Chat)
    ensures c.id == now && c.messages == []
    ensures c.name == DefaultChatName
  {
    Chat(now, DefaultChatName, [])
  }

  /**
   * The name a chat takes from its first message: texts up to 30 characters are kept
   * whole, longer ones are cut to their first 30 characters followed by "...".
   */
  function ChatTitle(text: string): (t: string)
    ensures |t| <= TitleLimit + |Ellipsis|
    ensures |text| <= TitleLimit ==> t == text
    ensures |text| > TitleLimit ==> |t| == TitleLimit + |Ellipsis| && t[TitleLimit..] == Ellipsis
    ensures |text| > TitleLimit ==> t[..TitleLimit] == text[..TitleLimit]
  {
    if |text| > TitleLimit then text[..TitleLimit] + Ellipsis else text
  }

  /** The message a user sends, stamped with the send time. */
  function UserMessage(text: string, now: int, timestamp: int): (m: Message)
    ensures m.sender == User && m.text == text && m.id == now
  {
    Message(now, text, timestamp, User)
  }

  // ---------------------------------------------------------------------------
  // createBotMessages
  // ---------------------------------------------------------------------------

  datatype ChartType = Pie | Line | Bar | Scatter

  /** The name the chart marker carries for each chart type. */
  function ChartTypeName(t: ChartType): string {
    match t
    case Pie => "pie"
    case Line => "line"
    case Bar => "bar"
    case Scatter => "scatter"
  }

  function ChartCaption(t: ChartType): string {
    match t
    case Pie => "Exibindo um gráfico de Preferência por Filmes:"
    case Line => "Exibindo o Faturamento Anual da Empresa:"
    case Bar => "Exibindo as Vendas por Vendedor:"
    case Scatter => "Exibindo um gráfico de Dispersão com Linha de Regressão:"
  }

  /**
   * The chart a message asks for: none unless the lower-cased message mentions
   * "gráfico"; then the first keyword found in the order
   * pizza, linha, barra or coluna, dispersão decides the type.
   */
  function ChartRequest(message: string): (r: Option<ChartType>)
    ensures var lower := ToLower(message);
      && (r.Some? <==>
            (Contains(lower, "gráfico")
             && (Contains(lower, "pizza") || Contains(lower, "linha") || Contains(lower, "barra")
                 || Contains(lower, "coluna") || Contains(lower, "dispersão"))))
      && (r == Some(Pie) <==> Contains(lower, "gráfico") && Contains(lower, "pizza"))
      && (r == Some(Line) <==> Contains(lower, "gráfico") && !Contains(lower, "pizza") && Contains(lower, "linha"))
      && (r == Some(Bar) <==>
            (Contains(lower, "gráfico") && !Contains(lower, "pizza") && !Contains(lower, "linha")
             && (Contains(lower, "barra") || Contains(lower, "coluna"))))
  {
    var lower := ToLower(message);
    if !Contains(lower, "gráfico") then None
    else if Contains(lower, "pizza") then Some(Pie)
    else if Contains(lower, "linha") then Some(Line)
    else if Contains(lower, "barra") || Contains(lower, "coluna") then Some(Bar)
    else if Contains(lower, "dispersão") then Some(Scatter)
    else None
  }

  /** The chart request does not depend on letter case. */
  lemma ChartRequestIgnoresCase(message: string)
    ensures ChartRequest(ToLower(message)) == ChartRequest(message)
  {
    ToLowerIdempotent(message);
  }

  /** The marker text that tells the chat area which chart to draw. */
  function ChartMarker(t: ChartType): string {
    "[CHART:" + ChartTypeName(t) + "]"
  }

  /**
   * `createBotMessages`: no messages unless a chart is requested, otherwise a caption
   * followed by the chart marker, both from the bot.
   */
  function CreateBotMessages(message: string, now: int, timestamp: int): (r: seq<Message>)
    ensures |r| == 0 || |r| == 2
    ensures r == [] <==> ChartRequest(message) == None
    ensures r != [] ==> r[0].sender == Bot && r[1].sender == Bot
    ensures r != [] ==> r[0].id == now + 1 && r[1].id == now + 2
    ensures r != [] ==> r[0].text == ChartCaption(ChartRequest(message).value)
    ensures r != [] ==> r[1].text == "[CHART:" + ChartTypeName(ChartRequest(message).value) + "]"
  {
    match ChartRequest(message)
    case None => []
    case Some(t) =>
      [Message(now + 1, ChartCaption(t), timestamp, Bot),
       Message(now + 2, ChartMarker(t), timestamp, Bot)]
  }

  // ---------------------------------------------------------------------------
  // Replies to a turn
  // ---------------------------------------------------------------------------

  /**
   * The response of the SQL-generation service, each field optional. `data` holds the
   * JSON rendering of the result rows and is present exactly when the field is truthy.
   */
  datatype ApiResponse = ApiResponse(
    sql: Option<string>,
    explanation: Option<string>,
    data: Option<string>,
    error: Option<string>,
    message: Option<string>)

  /** How the service call of a turn ended: with a response, or with an exception. */
  datatype Outcome = Answered(response: ApiResponse) | Failed

  const PlaceholderText: string := "Processando sua consulta..."
  const FailureText: string := "\U{274C} Ocorreu um erro ao processar sua mensagem. Tente novamente."

  /** The "processing" message shown while a turn waits for the service. */
  function Placeholder(now: int, timestamp: int): (m: Message)
    ensures m.sender == Bot && m.id == now + 1 && m.text == PlaceholderText
  {
    Message(now + 1, PlaceholderText, timestamp, Bot)
  }

  function ErrorText(detail: string): string {
    "\U{274C} Erro: " + detail
  }

  function SqlText(sql: string): string {
    "\U{1F4DD} SQL gerado:\n```sql\n" + sql + "\n```"
  }

  function DataText(json: string): string {
    "\U{2705} Resultado:\n```json\n" + json + "\n```"
  }

  function SqlPart(resp: ApiResponse, now: int, timestamp: int): seq<Message> {
    if IsTruthy(resp.sql) then [Message(now + 2, SqlText(resp.sql.value), timestamp, Bot)] else []
  }

  function DataPart(resp: ApiResponse, now: int, timestamp: int): seq<Message> {
    if resp.data.Some? then [Message(now + 3, DataText(resp.data.value), timestamp, Bot)] else []
  }

  function MessagePart(resp: ApiResponse, now: int, timestamp: int): seq<Message> {
    if !IsTruthy(resp.sql) && resp.data.None? && IsTruthy(resp.message)
    then [Message(now + 2, resp.message.value, timestamp, Bot)]
    else []
  }

  /**
   * The bot messages built from a response: one error message when `error` is set
   * (showing `message` in preference to `error`); otherwise the SQL message, then the
   * data message, and the plain `message` only when neither SQL nor data came back.
   */
  function ReplyMessages(resp: ApiResponse, now: int, timestamp: int): (r: seq<Message>)
    ensures forall i :: 0 <= i < |r| ==> r[i].sender == Bot && r[i].timestamp == timestamp
    ensures IsTruthy(resp.error) ==> |r| == 1
    ensures IsTruthy(resp.error) ==>
      r[0].text == ErrorText(if IsTruthy(resp.message) then resp.message.value else resp.error.value)
    ensures !IsTruthy(resp.error) ==> |r| <= 2
    ensures !IsTruthy(resp.error) && IsTruthy(resp.sql) ==> |r| >= 1 && r[0].text == SqlText(resp.sql.value)
    ensures !IsTruthy(resp.error) && resp.data.Some? ==> |r| >= 1 && r[|r| - 1].text == DataText(resp.data.value)
    ensures !IsTruthy(resp.error) && IsTruthy(resp.sql) && resp.data.Some? ==> |r| == 2
    ensures !IsTruthy(resp.error) && (IsTruthy(resp.sql) || resp.data.Some?) ==>
      |r| == (if IsTruthy(resp.sql) then 1 else 0) + (if resp.data.Some? then 1 else 0)
    ensures IsTruthy(resp.error) ==> r[0].id == now + 2
    ensures !IsTruthy(resp.error) && IsTruthy(resp.sql) ==> r[0].id == now + 2
    ensures !IsTruthy(resp.error) && resp.data.Some? ==> r[|r| - 1].id == now + 3
    ensures !IsTruthy(resp.error) && !IsTruthy(resp.sql) && resp.data.None? ==>
      r == (if IsTruthy(resp.message) then [Message(now + 2, resp.message.value, timestamp, Bot)] else [])
    ensures r == [] <==> !IsTruthy(resp.error) && !IsTruthy(resp.sql) && resp.data.None? && !IsTruthy(resp.message)
  {
    if IsTruthy(resp.error) then
      var detail := if IsTruthy(resp.message) then resp.message.value else resp.error.value;
      [Message(now + 2, ErrorText(detail), timestamp, Bot)]
    else
      SqlPart(resp, now, timestamp) + DataPart(resp, now, timestamp) + MessagePart(resp, now, timestamp)
  }

  /** The messages that settle a turn: the reply to a response, or one generic failure message. */
  function Resolution(outcome: Outcome, now: int, timestamp: int): (r: seq<Message>)
    ensures forall i :: 0 <= i < |r| ==> r[i].sender == Bot
    ensures outcome.Failed? ==> r == [Message(now + 2, FailureText, timestamp, Bot)]
    ensures outcome.Answered? ==> r == ReplyMessages(outcome.response, now, timestamp)
  {
    match outcome
    case Answered(resp) => ReplyMessages(resp, now, timestamp)
    case Failed => [Message(now + 2, FailureText, timestamp, Bot)]
  }

  /** Replies depend on nothing but the response and the clock: equal inputs give equal texts. */
  lemma ReplyTextsIgnoreClock(resp: ApiResponse, now1: int, ts1: int, now2: int, ts2: int)
    ensures |ReplyMessages(resp, now1, ts1)| == |ReplyMessages(resp, now2, ts2)|
    ensures forall i :: 0 <= i < |ReplyMessages(resp, now1, ts1)| ==>
      ReplyMessages(resp, now1, ts1)[i].text == ReplyMessages(resp, now2, ts2)[i].text
  {
  }
}
