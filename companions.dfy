/** The companion records the controllers read and write (models/types.ts). */
module Companions {
  import opened Wrappers

  /** A row of the `companions` table; its timestamps are set by the database and left out. */
  datatype Companion = Companion(
    id: string,
    name: string,
    subject: string,
    topic: string,
    voice: string,
    style: string,
    duration: int,
    authorId: string,
    isPublic: bool,
    vapiAssistantId: Option<string>,
    instructions: Option<string>)

  /** `CreateCompanionData`: what a caller of `createCompanion` supplies. */
  datatype CreateCompanionData = CreateCompanionData(
    name: string,
    subject: string,
    topic: string,
    voice: string,
    style: string,
    duration: int,
    isPublic: Option<bool>,
    instructions: Option<string>)
}
