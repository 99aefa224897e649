/** Schedule editing for one class (`clase/agregarHorario.js`): a list of
    schedules, each with a list of time slots, that the handlers replace by
    an appended, mapped or filtered copy once the API answers with status 200. */
module ScheduleEditing {
  import opened Common

  datatype TimeSlot = TimeSlot(id: string, startTime: string, endTime: string)
  datatype Schedule = Schedule(id: string, name: string, dayOfWeek: string, time: seq<TimeSlot>)

  /** The answer to a PATCH: a response with its HTTP status and payload, or
      a thrown error. */
  datatype Patch<T> = Answered(status: int, data: T) | Threw

  /** The request bodies the two add handlers send. */
  datatype ScheduleBody = ScheduleBody(name: string, dia: string)
  datatype SlotBody = SlotBody(horarioId: string, startTime: string, endTime: string)

  /** `schedules.map(s => s._id === scheduleId ? {...s, time: [...s.time, slot]} : s)` */
  function AppendSlot(ss: seq<Schedule>, scheduleId: string, slot: TimeSlot): (r: seq<Schedule>)
    ensures |r| == |ss|
    ensures forall i :: 0 <= i < |ss| ==>
              r[i] == if ss[i].id == scheduleId then ss[i].(time := ss[i].time + [slot]) else ss[i]
  {
    if ss == [] then []
    else
      [if ss[0].id == scheduleId then ss[0].(time := ss[0].time + [slot]) else ss[0]]
      + AppendSlot(ss[1..], scheduleId, slot)
  }

  /** `schedules.filter(s => s._id !== scheduleId)` */
  function RemoveSchedule(ss: seq<Schedule>, scheduleId: string): (r: seq<Schedule>)
    ensures |r| <= |ss|
    ensures forall s :: s in r <==> s in ss && s.id != scheduleId
  {
    if ss == [] then []
    else (if ss[0].id != scheduleId then [ss[0]] else []) + RemoveSchedule(ss[1..], scheduleId)
  }

  /** `time.filter(t => t._id !== slotId)` */
  function RemoveSlotFrom(ts: seq<TimeSlot>, slotId: string): (r: seq<TimeSlot>)
    ensures |r| <= |ts|
    ensures forall t :: t in r <==> t in ts && t.id != slotId
  {
    if ts == [] then []
    else (if ts[0].id != slotId then [ts[0]] else []) + RemoveSlotFrom(ts[1..], slotId)
  }

  /** The nested filter of `handleRemoveSubSchedule`. */
  function RemoveSlot(ss: seq<Schedule>, scheduleId: string, slotId: string): (r: seq<Schedule>)
    ensures |r| == |ss|
    ensures forall i :: 0 <= i < |ss| ==>
              r[i] == if ss[i].id == scheduleId then ss[i].(time := RemoveSlotFrom(ss[i].time, slotId)) else ss[i]
  {
    if ss == [] then []
    else
      [if ss[0].id == scheduleId then ss[0].(time := RemoveSlotFrom(ss[0].time, slotId)) else ss[0]]
      + RemoveSlot(ss[1..], scheduleId, slotId)
  }

  predicate HasSchedule(ss: seq<Schedule>, scheduleId: string) {
    exists i :: 0 <= i < |ss| && ss[i].id == scheduleId
  }

  /** Adding a slot for an id that no schedule has changes nothing. */
  lemma AppendSlotToMissingId(ss: seq<Schedule>, scheduleId: string, slot: TimeSlot)
    requires !HasSchedule(ss, scheduleId)
    ensures AppendSlot(ss, scheduleId, slot) == ss
  {
    var r := AppendSlot(ss, scheduleId, slot);
    assert forall i :: 0 <= i < |ss| ==> r[i] == ss[i];
  }

  /** Adding a slot keeps every schedule's id, name and day, and every slot
      already present, and adds exactly one slot to each matching schedule. */
  lemma AppendSlotKeepsShape(ss: seq<Schedule>, scheduleId: string, slot: TimeSlot, i: nat)
    requires i < |ss|
    ensures var r := AppendSlot(ss, scheduleId, slot);
            && r[i].id == ss[i].id && r[i].name == ss[i].name && r[i].dayOfWeek == ss[i].dayOfWeek
            && r[i].time[..|ss[i].time|] == ss[i].time
            && |r[i].time| == |ss[i].time| + (if ss[i].id == scheduleId then 1 else 0)
  {
  }

  /** Filtering by id distributes over concatenation, so the schedules that
      remain keep their relative order. */
  lemma {:induction false} RemoveScheduleDistributes(a: seq<Schedule>, b: seq<Schedule>, scheduleId: string)
    ensures RemoveSchedule(a + b, scheduleId) == RemoveSchedule(a, scheduleId) + RemoveSchedule(b, scheduleId)
  {
    if a == [] {
      assert a + b == b;
    } else {
      assert (a + b)[1..] == a[1..] + b;
      RemoveScheduleDistributes(a[1..], b, scheduleId);
    }
  }

  /** Slot removal distributes over concatenation as well, so the slots that
      remain keep their relative order. */
  lemma {:induction false} RemoveSlotFromDistributes(a: seq<TimeSlot>, b: seq<TimeSlot>, slotId: string)
    ensures RemoveSlotFrom(a + b, slotId) == RemoveSlotFrom(a, slotId) + RemoveSlotFrom(b, slotId)
  {
    if a == [] {
      assert a + b == b;
    } else {
      assert (a + b)[1..] == a[1..] + b;
      RemoveSlotFromDistributes(a[1..], b, slotId);
    }
  }

  /** Removing an id that no schedule has leaves the list as it was. */
  lemma {:induction false} RemoveMissingSchedule(ss: seq<Schedule>, scheduleId: string)
    requires !HasSchedule(ss, scheduleId)
    ensures RemoveSchedule(ss, scheduleId) == ss
  {
    if ss != [] {
      assert ss[0].id != scheduleId;
      assert !HasSchedule(ss[1..], scheduleId) by {
        forall i | 0 <= i < |ss[1..]| ensures ss[1..][i].id != scheduleId {
          assert ss[1..][i] == ss[i + 1];
        }
      }
      RemoveMissingSchedule(ss[1..], scheduleId);
      assert [ss[0]] + ss[1..] == ss;
    }
  }

  /** After a removal no schedule with that id is left, so removing the same
      id again changes nothing. */
  lemma RemoveScheduleIdempotent(ss: seq<Schedule>, scheduleId: string)
    ensures !HasSchedule(RemoveSchedule(ss, scheduleId), scheduleId)
    ensures RemoveSchedule(RemoveSchedule(ss, scheduleId), scheduleId) == RemoveSchedule(ss, scheduleId)
  {
    var r := RemoveSchedule(ss, scheduleId);
    assert !HasSchedule(r, scheduleId) by {
      forall i | 0 <= i < |r| ensures r[i].id != scheduleId {
        assert r[i] in r;
      }
    }
    RemoveMissingSchedule(r, scheduleId);
  }

  /** In every schedule with the given id no slot with the removed id is
      left, and no other slot goes; other schedules are untouched. */
  lemma RemoveSlotEffect(ss: seq<Schedule>, scheduleId: string, slotId: string, i: nat)
    requires i < |ss|
    ensures var r := RemoveSlot(ss, scheduleId, slotId);
            && r[i].id == ss[i].id
            && (ss[i].id == scheduleId ==>
                  forall t :: t in r[i].time <==> t in ss[i].time && t.id != slotId)
            && (ss[i].id != scheduleId ==> r[i] == ss[i])
  {
  }

  /** The component's state. */
  class ClassAddSchedule {
    var schedules: seq<Schedule>
    var scheduleName: string
    var dayOfWeek: string
    var startTime: string
    var endTime: string
    var selectedScheduleId: string
    var loading: bool

    constructor ()
      ensures schedules == [] && loading
      ensures scheduleName == "" && dayOfWeek == "" && startTime == "" && endTime == "" && selectedScheduleId == ""
    {
      schedules := [];
      scheduleName, dayOfWeek, startTime, endTime, selectedScheduleId := "", "", "", "", "";
      loading := true;
    }

    /** `fetchClassData`: the class's `general_schedule` on success. */
    method FetchClassData(reply: Reply<seq<Schedule>>)
      modifies this
      ensures reply.Ok? ==> schedules == reply.value
      ensures reply.Failed? ==> schedules == old(schedules)
      ensures !loading
      ensures scheduleName == old(scheduleName) && dayOfWeek == old(dayOfWeek)
      ensures startTime == old(startTime) && endTime == old(endTime) && selectedScheduleId == old(selectedScheduleId)
    {
      match reply
      case Ok(general) =>
        schedules := general;
        loading := false;
      case Failed =>
        loading := false;
    }

    /** `handleAddSchedule` */
    method HandleAddSchedule(reply: Patch<Schedule>) returns (body: ScheduleBody)
      modifies this
      ensures body == ScheduleBody(old(scheduleName), old(dayOfWeek))
      ensures reply.Answered? && reply.status == 200 ==>
                schedules == old(schedules) + [reply.data] && scheduleName == "" && dayOfWeek == ""
      ensures !(reply.Answered? && reply.status == 200) ==>
                schedules == old(schedules) && scheduleName == old(scheduleName) && dayOfWeek == old(dayOfWeek)
      ensures startTime == old(startTime) && endTime == old(endTime)
      ensures selectedScheduleId == old(selectedScheduleId) && loading == old(loading)
    {
      body := ScheduleBody(scheduleName, dayOfWeek);
      if reply.Answered? && reply.status == 200 {
        schedules := schedules + [reply.data];
        scheduleName := "";
        dayOfWeek := "";
      }
    }

    /** `handleAddSubSchedule` */
    method HandleAddSubSchedule(reply: Patch<TimeSlot>) returns (body: SlotBody)
      modifies this
      ensures body == SlotBody(old(selectedScheduleId), old(startTime), old(endTime))
      ensures reply.Answered? && reply.status == 200 ==>
                schedules == AppendSlot(old(schedules), selectedScheduleId, reply.data)
                && startTime == "" && endTime == ""
      ensures !(reply.Answered? && reply.status == 200) ==>
                schedules == old(schedules) && startTime == old(startTime) && endTime == old(endTime)
      ensures scheduleName == old(scheduleName) && dayOfWeek == old(dayOfWeek)
      ensures selectedScheduleId == old(selectedScheduleId) && loading == old(loading)
    {
      body := SlotBody(selectedScheduleId, startTime, endTime);
      if reply.Answered? && reply.status == 200 {
        schedules := AppendSlot(schedules, selectedScheduleId, reply.data);
        startTime := "";
        endTime := "";
      }
    }

    /** `handleRemoveSchedule` */
    method HandleRemoveSchedule(scheduleId: string, reply: Patch<()>)
      modifies this
      ensures reply.Answered? && reply.status == 200 ==> schedules == RemoveSchedule(old(schedules), scheduleId)
      ensures !(reply.Answered? && reply.status == 200) ==> schedules == old(schedules)
      ensures scheduleName == old(scheduleName) && dayOfWeek == old(dayOfWeek)
      ensures startTime == old(startTime) && endTime == old(endTime)
      ensures selectedScheduleId == old(selectedScheduleId) && loading == old(loading)
    {
      if reply.Answered? && reply.status == 200 {
        schedules := RemoveSchedule(schedules, scheduleId);
      }
    }

    /** `handleRemoveSubSchedule` */
    method HandleRemoveSubSchedule(scheduleId: string, slotId: string, reply: Patch<()>)
      modifies this
      ensures reply.Answered? && reply.status == 200 ==> schedules == RemoveSlot(old(schedules), scheduleId, slotId)
      ensures !(reply.Answered? && reply.status == 200) ==> schedules == old(schedules)
      ensures scheduleName == old(scheduleName) && dayOfWeek == old(dayOfWeek)
      ensures startTime == old(startTime) && endTime == old(endTime)
      ensures selectedScheduleId == old(selectedScheduleId) && loading == old(loading)
    {
      if reply.Answered? && reply.status == 200 {
        schedules := RemoveSlot(schedules, scheduleId, slotId);
      }
    }
  }
}
