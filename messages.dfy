/**
 * The message handler's dispatch (sw.js:31-36).
 */
module Messages {
  import opened Wrappers
  import opened Prayers

  /** A message whose `data` is an object: its `type` when that is a string, and its `timings`
      when that is an object. Falsy `data` (undefined, null) is `None` in `Dispatch`. */
  datatype MessageData = MessageData(kind: Option<string>, timings: Option<Timings>)

  const ScheduleType: string := "SCHEDULE_NOTIFICATIONS"

  datatype Command = Schedule(timings: Option<Timings>) | Ignore

  /** Only data whose `type` is exactly "SCHEDULE_NOTIFICATIONS" starts scheduling,
      with the message's timings (possibly absent); every other message is ignored. */
  function Dispatch(data: Option<MessageData>): (c: Command)
    ensures c.Schedule? <==> data.Some? && data.value.kind == Some(ScheduleType)
    ensures c.Schedule? ==> c.timings == data.value.timings
  {
    if data.Some? && data.value.kind == Some(ScheduleType) then Schedule(data.value.timings) else Ignore
  }
}
