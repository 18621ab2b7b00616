/**
 * Repair tickets: the record kept for every device brought into the shop,
 * its three closed enumerations, and the status keys the bulk editor accepts.
 */
module Tickets {

  /** A form field left empty or a document member that is missing is `None`. */
  datatype Option<T> = None | Some(value: T)

  /** The stored value, or the program's stand-in when there is none. */
  function ValueOr<T>(o: Option<T>, fallback: T): T {
    if o.Some? then o.value else fallback
  }

  /** The members of a sequence, duplicates merged. */
  function Elems<T>(s: seq<T>): set<T> {
    set x | x in s
  }

  datatype Status = Received | Diagnostic | Waiting | Repaired | Delivered

  /** Absent urgency reads as `Normal` at every point of use. */
  datatype Urgency = Normal | Urgent | Express

  /** Absent priority reads as `Normal` at every point of use. */
  datatype Priority = Normal | High | Critical

  /**
   * One repair ticket. Prices and durations are already-parsed decimals;
   * `createdAt`, `photoBefore` and `photoAfter` use the empty string for
   * "absent", which is how JavaScript's truthiness treats them.
   */
  datatype Device = Device(
    client: string,
    phone: string,
    model: string,
    problem: string,
    price: Option<real>,
    duration: Option<real>,
    status: Status,
    urgency: Urgency,
    priority: Priority,
    parts: string,
    warranty: string,
    time: string,
    date: string,
    createdAt: string,
    timeSpent: Option<real>,
    photoBefore: string,
    photoAfter: string)

  /** The fields the ticket form submits. */
  datatype Form = Form(
    client: string,
    phone: string,
    model: string,
    problem: string,
    price: Option<real>,
    duration: Option<real>,
    status: Status,
    urgency: Urgency,
    priority: Priority,
    parts: string,
    warranty: string)

  /** The form fields a ticket carries, as the edit dialog shows them again. */
  function FormOf(d: Device): Form {
    Form(d.client, d.phone, d.model, d.problem, d.price, d.duration,
         d.status, d.urgency, d.priority, d.parts, d.warranty)
  }

  /**
   * The record a form submission stores: every form field as submitted, the
   * given clock readings, no photos and no time spent yet. Such a record asks
   * for a photo exactly when its status is received or repaired.
   */
  function FromForm(f: Form, time: string, date: string, createdAt: string): (d: Device)
    ensures FormOf(d) == f
    ensures d.time == time && d.date == date && d.createdAt == createdAt
    ensures d.timeSpent == None && d.photoBefore == "" && d.photoAfter == ""
    ensures NeedsPhotoReminder(d) <==> f.status == Received || f.status == Repaired
  {
    Device(f.client, f.phone, f.model, f.problem, f.price, f.duration,
           f.status, f.urgency, f.priority, f.parts, f.warranty,
           time, date, createdAt, None, "", "")
  }

  /** Finished work: repaired or already handed back. */
  predicate IsDone(d: Device) {
    d.status == Repaired || d.status == Delivered
  }

  /**
   * The ticket still lacks the photo its status calls for: a "before" photo
   * on reception, an "after" photo once repaired.
   */
  predicate NeedsPhotoReminder(d: Device)
    ensures NeedsPhotoReminder(d) ==> d.status == Received || d.status == Repaired
  {
    (d.status == Received && d.photoBefore == "") ||
    (d.status == Repaired && d.photoAfter == "")
  }

  /** Once both photos are on file, no status asks for one. */
  lemma PhotosClearReminder(d: Device, before: string, after: string)
    requires before != "" && after != ""
    ensures !NeedsPhotoReminder(d.(photoBefore := before, photoAfter := after))
  {
  }

  /** The key under which a status is stored and typed by the user. */
  function StatusKey(s: Status): string {
    match s
    case Received => "received"
    case Diagnostic => "diagnostic"
    case Waiting => "waiting"
    case Repaired => "repaired"
    case Delivered => "delivered"
  }

  const StatusKeys: set<string> := {"received", "diagnostic", "waiting", "repaired", "delivered"}

  /**
   * Reads a typed status key. Only the five own keys of the status label
   * table are accepted; the empty answer (a cancelled prompt) is not.
   */
  function ParseStatus(key: string): (r: Option<Status>)
    ensures r.Some? <==> key in StatusKeys
    ensures r.Some? ==> StatusKey(r.value) == key
  {
    if key == "received" then Some(Received)
    else if key == "diagnostic" then Some(Diagnostic)
    else if key == "waiting" then Some(Waiting)
    else if key == "repaired" then Some(Repaired)
    else if key == "delivered" then Some(Delivered)
    else None
  }

  lemma ParseStatusKey(s: Status)
    ensures ParseStatus(StatusKey(s)) == Some(s)
    ensures StatusKey(s) in StatusKeys
  {
  }

  /** Property names every plain JavaScript object inherits from `Object.prototype`. */
  const InheritedNames: set<string> := {
    "constructor", "hasOwnProperty", "isPrototypeOf", "propertyIsEnumerable",
    "toString", "toLocaleString", "valueOf", "__proto__",
    "__defineGetter__", "__defineSetter__", "__lookupGetter__", "__lookupSetter__"
  }

  /**
   * The status guard as the bulk editor writes it: a key is admitted when
   * looking it up in the label table yields a truthy value, and an object
   * literal also answers, with a function or an object, for every inherited name.
   */
  predicate StatusGuardAsWritten(key: string) {
    key != "" && (key in StatusKeys || key in InheritedNames)
  }

  /** The guard as written lets a name through that is no status at all. */
  lemma GuardAdmitsInheritedName()
    ensures StatusGuardAsWritten("constructor")
    ensures ParseStatus("constructor") == None
  {
    assert "constructor" in InheritedNames;
    assert "constructor" != "received";
  }
}
