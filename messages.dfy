/** The payloads the scripts emit on the module's socket. Their `type` is read
    from the SOCKET_TYPES object in use, so a name it lacks gives `undefined`. */
module Messages {
  import opened Values
  import opened Constants

  function ShowUIPayload(types: StringTable, userId: string): Payload
  {
    map["type" := Lookup(types, "SHOW_UI"), "targetUserId" := Str(userId)]
  }

  function MediaPayload(types: StringTable, key: string): Payload
  {
    map["type" := Lookup(types, "PLAY_MEDIA"), "mediaKey" := Str(key)]
  }

  function SoundPayload(types: StringTable, key: string): Payload
  {
    map["type" := Lookup(types, "PLAY_SOUND"), "soundKey" := Str(key)]
  }

  function BorderPayload(types: StringTable, kind: string): Payload
  {
    map["type" := Lookup(types, "SHOW_BORDER"), "borderType" := Str(kind)]
  }

  function RemoveBorderPayload(types: StringTable): Payload
  {
    map["type" := Lookup(types, "REMOVE_BORDER")]
  }

  /** Each payload carries the type its emit site names and the one value it is about. */
  lemma PayloadFields(types: StringTable, s: string)
    ensures Prop(ShowUIPayload(types, s), "type") == Lookup(types, "SHOW_UI")
    ensures Prop(ShowUIPayload(types, s), "targetUserId") == Str(s)
    ensures Prop(MediaPayload(types, s), "type") == Lookup(types, "PLAY_MEDIA")
    ensures Prop(MediaPayload(types, s), "mediaKey") == Str(s)
    ensures Prop(SoundPayload(types, s), "type") == Lookup(types, "PLAY_SOUND")
    ensures Prop(SoundPayload(types, s), "soundKey") == Str(s)
    ensures Prop(BorderPayload(types, s), "type") == Lookup(types, "SHOW_BORDER")
    ensures Prop(BorderPayload(types, s), "borderType") == Str(s)
    ensures Prop(RemoveBorderPayload(types), "type") == Lookup(types, "REMOVE_BORDER")
    ensures Prop(RemoveBorderPayload(types), "borderType") == Undefined
  {
  }
}
