/**
 * The `group_join` handler: when the bot itself is among the participants
 * added, the fixed welcome text is sent once to that chat.
 */
module Greeter {

  const BoasVindas: string :=
    "Olá! Eu sou a Patricia.\n"
    + "Fui criada para transcrever e descrever os áudios e as imagens enviadas.\n"
    + "\n"
    + "Eu sou um projeto de código aberto e você pode me encontrar no GitHub.\n"
    + "\n"
    + "Além disso, é importante você saber que sou baseada no Gemini 2.0 Flash, modelo de inteligência artificial do Google. Por isso, ao me utilizar, você concorda com os termos de uso e privacidade do Google, que podem ser encontrados em."

  /** A `group_join` notification: the chat it is about and the serialized ids of those added. */
  datatype GroupNotification = GroupNotification(chatId: string, recipientIds: seq<string>)

  /** `chat.sendMessage(text)` on the chat with the given id. */
  datatype Send = Send(chatId: string, text: string)

  /** `ids.includes(x)`: a scan from the front. */
  function Includes(ids: seq<string>, x: string): (r: bool)
    ensures r <==> x in ids
  {
    if ids == [] then false
    else ids[0] == x || Includes(ids[1..], x)
  }

  /**
   * What the handler sends for one notification, given the client's own
   * serialized id (`client.info.wid._serialized`).
   */
  function OnGroupJoin(n: GroupNotification, selfId: string): (sent: seq<Send>)
    ensures selfId in n.recipientIds ==> sent == [Send(n.chatId, BoasVindas)]
    ensures selfId !in n.recipientIds ==> sent == []
  {
    if Includes(n.recipientIds, selfId) then [Send(n.chatId, BoasVindas)] else []
  }
}
