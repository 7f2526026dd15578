/** TwillioSMSParser.ProcessSMSAsync: one inbound SMS is logged, its sender
    is found or given an account, its intent is acted on, and the sender is
    answered; any exception ends the run with one apology.

    The collaborators (SMS, list and task repositories, the Identity user
    manager, the Twilio sender) are fields of SmsParser and methods that may
    fail: each either does its work or throws, and which one happens is not
    up to the handler. */
module SmsHandler {
  import opened Wrappers
  import opened Text
  import opened SmsParsing
  import opened Entity
  import opened TaskOrdering
  import opened PhoneNumber

  /** ApplicationUser, with the fields the handler sets or reads. Password
      is the password the account currently accepts. */
  datatype ApplicationUser = ApplicationUser(
    Id: int,
    UserName: string,
    PhoneNumber: string,
    PhoneNumberConfirmed: bool,
    EmailConfirmed: bool,
    Email: string,
    Password: string,
    TodoLists: Option<seq<TodoList>>)

  /** Entity.SMS: the audit record of one inbound message. */
  datatype Sms = Sms(Message: string, NumberFrom: string, NumberTo: string)

  /** The SMS replies the handler sends, by kind and with their parameters;
      Render gives the exact text of each. */
  datatype Reply =
    | AccountCreated(userName: string, password: string)
    | ReminderCreated(taskName: string)
    | NoReminders
    | LookupHeader(count: nat)
    | ReminderEntry(taskName: string, description: string)
    | HelpMessage
    | NewDetails(userName: string, password: string)
    | NotUnderstood
    | Apology

  /** The text of a reply, as the sender hands it to the network. */
  function Render(r: Reply): string
  {
    match r
    case AccountCreated(userName, password) =>
      "Your account on foreverly.cloud has been created!\r\nUsername: " + userName + "\r\nPassword: " + password
    case ReminderCreated(taskName) => "We've created your reminder under " + taskName
    case NoReminders => "You have no reminders"
    case LookupHeader(n) =>
      if n == 1 then "Your last reminder was:" else "Your last " + NatToString(n) + " reminders were:"
    case ReminderEntry(taskName, description) => taskName + ": " + description
    case HelpMessage =>
      "Say \"remind me to ...\" to set a reminder and \"reminders\" to get your last 5 reminders"
    case NewDetails(userName, password) =>
      "Your new account details\r\nUsername: " + userName + "\r\nPassword: " + password
    case NotUnderstood => "I'm sorry, I don't understand that, type \"how ...\" for valid commands"
    case Apology => "Something went wrong, we were unable to complete your action"
  }

  /** The confirmation text names the task: different names give different
      texts. */
  lemma ConfirmationNamesTask(a: string, b: string)
    ensures Render(ReminderCreated(a)) == Render(ReminderCreated(b)) ==> a == b
  {
    var p := "We've created your reminder under ";
    if Render(ReminderCreated(a)) == Render(ReminderCreated(b)) {
      assert a == Render(ReminderCreated(a))[|p|..];
      assert b == Render(ReminderCreated(b))[|p|..];
    }
  }

  /** The lookup header names the count: different counts give different
      headers. */
  lemma HeaderNamesCount(m: nat, n: nat)
    ensures Render(LookupHeader(m)) == Render(LookupHeader(n)) ==> m == n
  {
    HeaderWording(m);
    HeaderWording(n);
    if Render(LookupHeader(m)) == Render(LookupHeader(n)) && m != 1 && n != 1 {
      var p := "Your last ";
      var x := NatToString(m);
      var y := NatToString(n);
      var t := Render(LookupHeader(m));
      assert x == t[|p|..|p| + |x|];
      assert y == t[|p|..|p| + |y|];
      NatToStringInjective(m, n);
    }
  }

  /** Character 10 of a header is a digit exactly when the count is not 1,
      after "Your last " + count; the singular reads "reminder" there. */
  lemma HeaderWording(n: nat)
    ensures |Render(LookupHeader(n))| > 10
    ensures n == 1 <==> !IsDigit(Render(LookupHeader(n))[10])
    ensures n != 1 ==> |Render(LookupHeader(n))| == 10 + |NatToString(n)| + 16
    ensures n == 1 ==> Render(LookupHeader(n)) == "Your last reminder was:"
    ensures n != 1 ==> Render(LookupHeader(n)) == "Your last " + NatToString(n) + " reminders were:"
  {
    if n != 1 {
      var t := Render(LookupHeader(n));
      assert t[10] == NatToString(n)[0];
    }
  }

  /** One SMS handed to the sender: the recipient and the reply, whose text
      is Render(Body). */
  datatype Outgoing = Outgoing(To: string, Body: Reply)

  /** How a run of the handler ends: every step done; an exception caught
      and the apology sent; or the apology itself failing, so that the
      exception leaves the handler. */
  datatype Handling = Completed | Recovered | Escaped

  const ReminderListName := "Reminders"
  const ReminderColour := "black"
  const EmailDomain := "@foreverly.cloud"

  /** The display name of a reminder created in a list holding `count` tasks. */
  function ReminderName(count: nat): string
  {
    "Reminder " + NatToString(count + 1)
  }

  /** The lookup line for task `t`. */
  function LineFor(t: TodoTask): Reply
    reads t
  {
    ReminderEntry(t.TaskName, t.Description)
  }

  /** Reminders of different list sizes get different names. */
  lemma ReminderNamesDiffer(m: nat, n: nat)
    requires m != n
    ensures ReminderName(m) != ReminderName(n)
  {
    if ReminderName(m) == ReminderName(n) {
      var p := "Reminder ";
      assert NatToString(m + 1) == ReminderName(m)[|p|..];
      assert NatToString(n + 1) == ReminderName(n)[|p|..];
      NatToStringInjective(m + 1, n + 1);
    }
  }

  /** A reminder's name is "Reminder " followed by the decimal text of the
      list size plus one, and that number can be read back from the name. */
  lemma ReminderNameRoundTrip(count: nat)
    ensures var name := ReminderName(count);
            && |name| > 9 && name[..9] == "Reminder "
            && DecimalValue(name[9..]) == count + 1
  {
    var name := ReminderName(count);
    assert name[9..] == NatToString(count + 1);
    NatToStringRoundTrip(count + 1);
  }

  /** The branch of ProcessSMSAsync a message takes. Faulted: the reminder
      test threw. */
  datatype Intent = Reminder(description: string) | Lookup | Help | ResetPassword | Unknown | Faulted

  /** The if/else-if chain of ProcessSMSAsync: the first test that says yes
      picks the branch. */
  function Classify(message: string): Intent
  {
    match IsReminderIntent(message)
    case Thrown => Faulted
    case Returned(m) =>
      if m.found then Reminder(m.text)
      else if IsLookupIntent(message) then Lookup
      else if IsHelpIntent(message) then Help
      else if IsResetPasswordIntent(message) then ResetPassword
      else Unknown
  }

  /** The branch taken is decided in order: reminder, then lookup, then
      help, then reset password, else unknown; each test is reached only
      when every earlier one said no, and a throwing reminder test decides
      too. */
  lemma ClassifyPriority(message: string)
    ensures var r := Classify(message);
            && (r.Faulted? <==> IsReminderIntent(message).Thrown?)
            && (r.Reminder? <==> IsReminderIntent(message).Returned? && IsReminderIntent(message).value.found)
            && (r.Reminder? ==> r.description == IsReminderIntent(message).value.text)
    ensures var r := Classify(message);
            var earlier := StartsWith(Normalised(message), ReminderPrefix);
            && (r == Lookup <==> !earlier && IsLookupIntent(message))
            && (r == Help <==> !earlier && !IsLookupIntent(message) && IsHelpIntent(message))
            && (r == ResetPassword <==>
                  !earlier && !IsLookupIntent(message) && !IsHelpIntent(message) && IsResetPasswordIntent(message))
            && (r == Unknown <==>
                  !earlier && !IsLookupIntent(message) && !IsHelpIntent(message) && !IsResetPasswordIntent(message))
  {
  }

  /** The position of the first list called `name`. */
  function FirstNamed(lists: seq<TodoList>, name: string): (r: Option<nat>)
    reads set l | l in lists
    ensures r.Some? ==> r.value < |lists| && lists[r.value].ListName == name
    ensures r.Some? ==> forall i :: 0 <= i < r.value ==> lists[i].ListName != name
    ensures r.None? ==> forall i :: 0 <= i < |lists| ==> lists[i].ListName != name
  {
    if lists == [] then None
    else if lists[0].ListName == name then Some(0)
    else
      match FirstNamed(lists[1..], name)
      case None => None
      case Some(i) => Some(i + 1)
  }

  /** `user.TodoLists?.FirstOrDefault(x => x.ListName.Equals("Reminders"))`. */
  function FindReminderList(lists: Option<seq<TodoList>>): (r: Option<TodoList>)
    reads if lists.Some? then set l | l in lists.value else {}
    ensures r.Some? ==> lists.Some? && r.value in lists.value && r.value.ListName == ReminderListName
  {
    match lists
    case None => None
    case Some(ls) =>
      match FirstNamed(ls, ReminderListName)
      case None => None
      case Some(i) => Some(ls[i])
  }

  /** FirstOrDefault finds nothing exactly when the collection is null or no
      list in it is called "Reminders"; otherwise it finds the first list so
      called. */
  lemma FindReminderListIsFirst(lists: Option<seq<TodoList>>)
    ensures var r := FindReminderList(lists);
            && (r.None? <==> lists.None? || forall i :: 0 <= i < |lists.value| ==> lists.value[i].ListName != ReminderListName)
            && (r.Some? ==> exists i :: 0 <= i < |lists.value| && r.value == lists.value[i] &&
                              forall j :: 0 <= j < i ==> lists.value[j].ListName != ReminderListName)
  {
  }

  /** `tl?.TodoTasks`, a null list or a null collection read as empty. */
  function ReminderTasks(tl: Option<TodoList>): seq<TodoTask>
    reads if tl.Some? then {tl.value} else {}
  {
    if tl.Some? && tl.value.TodoTasks.Some? then tl.value.TodoTasks.value else []
  }

  /** One "<TaskName>: <Description>" reply per task, in order. */
  function ReminderLines(to: string, ts: seq<TodoTask>): (r: seq<Outgoing>)
    reads ts
    ensures |r| == |ts|
    ensures forall i :: 0 <= i < |ts| ==> r[i] == Outgoing(to, LineFor(ts[i]))
  {
    if ts == [] then []
    else ReminderLines(to, ts[..|ts| - 1]) + [Outgoing(to, LineFor(ts[|ts| - 1]))]
  }

  /** The replies to a lookup of the reminder tasks `ts`. */
  function LookupReplies(to: string, ts: seq<TodoTask>): (r: seq<Outgoing>)
    reads ts
  {
    if |ts| == 0 then [Outgoing(to, NoReminders)]
    else
      var latest := LatestReminders(ts);
      assert forall i :: 0 <= i < |latest| ==> latest[i] in ts;
      [Outgoing(to, LookupHeader(Min(|ts|, MaxListed)))] + ReminderLines(to, latest)
  }

  /** A lookup answers "no reminders" alone, or a header naming n = min(count, 5)
      (singular wording exactly when n is 1) followed by n lines for the n
      highest-ranked tasks, highest first. */
  lemma LookupRepliesShape(to: string, ts: seq<TodoTask>)
    ensures var r := LookupReplies(to, ts);
            var n := Min(|ts|, MaxListed);
            && (|ts| == 0 ==> r == [Outgoing(to, NoReminders)])
            && (|ts| > 0 ==>
                  && |r| == n + 1 && 1 <= n <= MaxListed
                  && r[0] == Outgoing(to, LookupHeader(n))
                  && Render(r[0].Body) == if n == 1 then "Your last reminder was:"
                                          else "Your last " + NatToString(n) + " reminders were:")
            && forall i :: 1 <= i < |r| ==>
                 r[i] == Outgoing(to, LineFor(LatestReminders(ts)[i - 1])) &&
                 (i + 1 < |r| ==> IdAtLeast(LatestReminders(ts)[i - 1].TaskID, LatestReminders(ts)[i].TaskID))
  {
    LatestRemindersSorted(ts);
  }

  /** The replies of the branch `intent` takes, when nothing throws, for a
      user called `userName` whose reminder list holds `ts`. */
  function IntentReplies(to: string, intent: Intent, userName: string, ts: seq<TodoTask>, newPassword: string): seq<Outgoing>
    reads ts
  {
    match intent
    case Reminder(_) => [Outgoing(to, ReminderCreated(ReminderName(|ts|)))]
    case Lookup => LookupReplies(to, ts)
    case Help => [Outgoing(to, HelpMessage)]
    case ResetPassword => [Outgoing(to, NewDetails(userName, newPassword))]
    case Unknown => [Outgoing(to, NotUnderstood)]
    case Faulted => []
  }

  /** The replies of the provisioning step: the new-account message, sent
      only to a sender with no account. */
  function ProvisionReplies(number: string, known: bool, password: string): seq<Outgoing>
  {
    if known then [] else [Outgoing(number, AccountCreated(SimplifyNumber(number), password))]
  }

  /** Every reply of a run in which nothing throws: the new-account message
      for an unknown sender, then the replies of the message's branch. */
  function RunReplies(number: string, message: string, known: bool, ts: seq<TodoTask>,
                      password: string, newPassword: string): seq<Outgoing>
    reads ts
  {
    ProvisionReplies(number, known, password) + IntentReplies(number, Classify(message), SimplifyNumber(number), ts, newPassword)
  }

  /** `sent` is `before` followed by the first replies of `plan`. */
  predicate Extends(sent: seq<Outgoing>, before: seq<Outgoing>, plan: seq<Outgoing>)
  {
    |before| <= |sent| && sent[..|before|] == before && sent[|before|..] <= plan
  }

  lemma ExtendsBy(before: seq<Outgoing>, done: seq<Outgoing>, plan: seq<Outgoing>)
    requires done <= plan
    ensures Extends(before + done, before, plan)
  {
    assert (before + done)[|before|..] == done;
  }

  lemma ExtendsWeaken(sent: seq<Outgoing>, before: seq<Outgoing>, plan: seq<Outgoing>, longer: seq<Outgoing>)
    requires Extends(sent, before, plan) && plan <= longer
    ensures Extends(sent, before, longer)
  {
  }

  lemma ExtendsThen(sent: seq<Outgoing>, before: seq<Outgoing>, first: seq<Outgoing>, rest: seq<Outgoing>)
    requires Extends(sent, before + first, rest)
    ensures Extends(sent, before, first + rest)
    ensures sent == before + first + rest ==> sent == before + (first + rest)
  {
    assert sent[..|before|] == (before + first)[..|before|];
    assert sent[|before|..] == first + sent[|before + first|..];
  }

  /** `list` is a saved "Reminders" list created for user `userId` at `now`. */
  predicate IsNewReminderList(list: TodoList, userId: int, now: int)
    reads list
  {
    && list.ListName == ReminderListName && list.DateCreated == now && list.UserID == userId
    && list.LeftPositoned && list.TodoTasks == None && list.ListID.Some?
  }

  /** `task` is a saved reminder for a list that held `count` tasks, filed
      under the list identity `listID`. */
  predicate IsNewReminder(task: TodoTask, count: nat, description: string, listID: Option<int>)
    reads task
  {
    && task.TaskName == ReminderName(count) && task.Description == description
    && task.Colour == ReminderColour && task.ListID == listID && task.TaskID.Some?
  }

  /** What the reminder branch leaves in the list and task repositories,
      going from `lists0`/`tasks0` to `lists`/`tasks`, for a user `userId`
      whose reminder list was `existing` holding `count` tasks: at most one
      new "Reminders" list, only when the user had none, and at most one new
      reminder, filed under the reminder list. */
  predicate RemindersStored(lists0: seq<TodoList>, lists: seq<TodoList>, tasks0: seq<TodoTask>, tasks: seq<TodoTask>,
                            existing: Option<TodoList>, count: nat, userId: int, description: string, now: int)
    reads if |lists| > |lists0| then {lists[|lists0|]} else {}
    reads if |tasks| > |tasks0| then {tasks[|tasks0|]} else {}
    reads if existing.Some? then {existing.value} else {}
  {
    && (|| lists == lists0
        || (&& existing.None? && |lists| == |lists0| + 1 && lists[..|lists0|] == lists0
            && IsNewReminderList(lists[|lists0|], userId, now)))
    && (|| tasks == tasks0
        || (&& |tasks| == |tasks0| + 1 && tasks[..|tasks0|] == tasks0
            && (existing.Some? || |lists| > |lists0|)
            && IsNewReminder(tasks[|tasks0|], count, description,
                             if existing.Some? then existing.value.ListID else lists[|lists0|].ListID)))
  }

  /** The record CreateAsync is handed for a new sender. */
  function NewAccount(key: string, number: string): ApplicationUser
  {
    ApplicationUser(0, key, number, true, true, key + EmailDomain, "", Some([]))
  }

  /** The account of the sender `key` once provisioned: the stored one, or
      the one CreateAsync stores with identity `nextId` and `password`. */
  function Account(users: map<string, ApplicationUser>, nextId: int, key: string, number: string, password: string): ApplicationUser
  {
    if key in users then users[key] else NewAccount(key, number).(Id := nextId, Password := password)
  }

  lemma UpdateTwice(m: map<string, ApplicationUser>, k: string, a: ApplicationUser, b: ApplicationUser)
    ensures m[k := a][k := b] == m[k := b]
  {
  }

  /** Users are filed under their own user name and have distinct
      identities, all below `nextId`, the next one to be handed out. */
  ghost predicate ValidUsers(users: map<string, ApplicationUser>, nextId: int)
  {
    && (forall name :: name in users ==> users[name].UserName == name)
    && (forall name :: name in users ==> users[name].Id < nextId)
    && (forall a, b :: a in users && b in users && users[a].Id == users[b].Id ==> a == b)
  }

  class SmsParser {
    /** The Twilio:OutgoingNumber setting. */
    const OutgoingNumber: string
    /** The SMS repository: every inbound message saved. */
    var Messages: seq<Sms>
    /** The Identity user store, by user name, and its next identity. */
    var Users: map<string, ApplicationUser>
    var NextUserId: int
    /** Every list handed to the list repository, and its next identity; a
        write-only log, never read back into a user's TodoLists. */
    var Lists: seq<TodoList>
    var NextListId: int
    /** Every task handed to the task repository, and its next identity; a
        write-only log, never read back into a list's TodoTasks. */
    var Tasks: seq<TodoTask>
    var NextTaskId: int
    /** Every SMS handed to the Twilio sender. */
    var Sent: seq<Outgoing>

    /** The user store is well formed. */
    ghost predicate Valid()
      reads this
    {
      ValidUsers(Users, NextUserId)
    }

    constructor (outgoingNumber: string)
      ensures Valid() && OutgoingNumber == outgoingNumber
      ensures Messages == [] && Users == map[] && Lists == [] && Tasks == [] && Sent == []
    {
      OutgoingNumber := outgoingNumber;
      Messages := [];
      Users := map[];
      NextUserId := 1;
      Lists := [];
      NextListId := 1;
      Tasks := [];
      NextTaskId := 1;
      Sent := [];
    }

    /** The lists the user called `key` owns; an unknown user owns none. */
    ghost function OwnedLists(key: string): Option<seq<TodoList>>
      reads this
    {
      if key in Users then Users[key].TodoLists else Some([])
    }

    /** The tasks in the reminder list of the user called `key`. */
    ghost function StoredReminders(key: string): seq<TodoTask>
      reads this
      reads var owned := OwnedLists(key); if owned.Some? then set l | l in owned.value else {}
    {
      ReminderTasks(FindReminderList(OwnedLists(key)))
    }

    // ---- collaborators ----

    /** _smsSender.SendSMSAsync. */
    method Send(to: string, body: Reply) returns (ok: bool)
      modifies this`Sent
      ensures Sent == if ok then old(Sent) + [Outgoing(to, body)] else old(Sent)
    {
      ok := *;
      if ok {
        Sent := Sent + [Outgoing(to, body)];
      }
    }

    /** _smsRepository.SaveAsync. */
    method SaveSms(sms: Sms) returns (ok: bool)
      modifies this`Messages
      ensures Messages == if ok then old(Messages) + [sms] else old(Messages)
    {
      ok := *;
      if ok {
        Messages := Messages + [sms];
      }
    }

    /** _userManager.FindByNameAsync. */
    method FindByName(name: string) returns (ok: bool, user: Option<ApplicationUser>)
      ensures ok ==> user == if name in Users then Some(Users[name]) else None
    {
      ok := *;
      user := if name in Users then Some(Users[name]) else None;
    }

    /** _userManager.CreateAsync. A failed IdentityResult is not an
        exception: the call returns and nothing is stored. */
    method CreateUser(user: ApplicationUser, password: string) returns (ok: bool)
      requires Valid()
      modifies this`Users, this`NextUserId
      ensures Valid()
      ensures || (Users == old(Users) && NextUserId == old(NextUserId))
              || (ok && user.UserName !in old(Users) &&
                  Users == old(Users)[user.UserName := user.(Id := old(NextUserId), Password := password)])
    {
      ok := *;
      var stored: bool := *;
      if ok && stored && user.UserName !in Users {
        Users := Users[user.UserName := user.(Id := NextUserId, Password := password)];
        NextUserId := NextUserId + 1;
      }
    }

    /** ApplicationUserManager.ChangePasswordAsync(userId, password). As
        with CreateAsync, a failed IdentityResult returns normally and
        changes nothing. */
    method ChangePassword(userId: int, password: string) returns (ok: bool)
      requires Valid()
      modifies this`Users
      ensures Valid()
      ensures || Users == old(Users)
              || (&& ok && Users.Keys == old(Users).Keys
                  && forall name :: name in Users ==>
                       Users[name] == if old(Users)[name].Id == userId then old(Users)[name].(Password := password)
                                      else old(Users)[name])
    {
      ok := *;
      var changed: bool := *;
      if ok && changed {
        Users := map name | name in Users ::
                   if Users[name].Id == userId then Users[name].(Password := password) else Users[name];
      }
    }

    /** _todoListRepository.SaveAsync on a new list: it is stored and given
        its identity. */
    method SaveList(list: TodoList) returns (ok: bool)
      modifies this`Lists, this`NextListId, list`ListID
      ensures !ok ==> Lists == old(Lists) && NextListId == old(NextListId) && list.ListID == old(list.ListID)
      ensures ok ==> Lists == old(Lists) + [list] && list.ListID == Some(old(NextListId)) &&
                     NextListId == old(NextListId) + 1
    {
      ok := *;
      if ok {
        list.ListID := Some(NextListId);
        Lists := Lists + [list];
        NextListId := NextListId + 1;
      }
    }

    /** _todoTaskRepository.SaveAsync on a new task: it is stored and given
        its identity. */
    method SaveTask(task: TodoTask) returns (ok: bool)
      modifies this`Tasks, this`NextTaskId, task`TaskID
      ensures !ok ==> Tasks == old(Tasks) && NextTaskId == old(NextTaskId) && task.TaskID == old(task.TaskID)
      ensures ok ==> Tasks == old(Tasks) + [task] && task.TaskID == Some(old(NextTaskId)) &&
                     NextTaskId == old(NextTaskId) + 1
    {
      ok := *;
      if ok {
        task.TaskID := Some(NextTaskId);
        Tasks := Tasks + [task];
        NextTaskId := NextTaskId + 1;
      }
    }

    /** The reminder branch (lines 110-132) for a found `user`: the first
        "Reminders" list, created and saved when there is none, receives a
        task "Reminder <n+1>" for a list of n tasks, and the sender is told
        its name. */
    method HandleReminder(number: string, user: ApplicationUser, description: string, now: int) returns (ok: bool)
      modifies this`Lists, this`NextListId, this`Tasks, this`NextTaskId, this`Sent
      ensures var existing := old(FindReminderList(user.TodoLists));
              var count := old(|ReminderTasks(existing)|);
              && Sent == old(Sent) + (if ok then [Outgoing(number, ReminderCreated(ReminderName(count)))] else [])
              && RemindersStored(old(Lists), Lists, old(Tasks), Tasks, existing, count, user.Id, description, now)
              && (ok ==> Tasks != old(Tasks))
      ensures |Lists| > |old(Lists)| ==> fresh(Lists[|old(Lists)|])
      ensures |Tasks| > |old(Tasks)| ==> fresh(Tasks[|old(Tasks)|])
    {
      var existing := FindReminderList(user.TodoLists);
      var list: TodoList;
      if existing.Some? {
        list := existing.value;
      } else {
        list := new TodoList(ReminderListName, now, user.Id, true);
        ok := SaveList(list);
        if !ok {
          return;
        }
      }
      var count := |ReminderTasks(Some(list))|;
      var task := new TodoTask(ReminderName(count), description, ReminderColour, list.ListID);
      ok := SaveTask(task);
      if !ok {
        return;
      }
      ok := Send(number, ReminderCreated(task.TaskName));
    }

    /** Hands `replies` to the sender one at a time, in order, stopping at
        the first send that fails; the foreach loop of lines 149-151 is such
        a run. */
    method SendAll(replies: seq<Outgoing>) returns (ok: bool)
      modifies this`Sent
      ensures Extends(Sent, old(Sent), replies)
      ensures ok <==> Sent == old(Sent) + replies
    {
      ghost var before := Sent;
      ok := true;
      var i := 0;
      while i < |replies|
        invariant 0 <= i <= |replies|
        invariant Sent == before + replies[..i]
      {
        ok := Send(replies[i].To, replies[i].Body);
        if !ok {
          ExtendsBy(before, replies[..i], replies);
          assert |Sent| < |before + replies|;
          return;
        }
        assert replies[..i + 1] == replies[..i] + [replies[i]];
        i := i + 1;
      }
      assert replies[..i] == replies;
      ExtendsBy(before, replies, replies);
    }

    /** The lookup branch (lines 133-152) for a found `user`: the replies of
        LookupReplies, sent in order until one fails. */
    method HandleLookup(number: string, user: ApplicationUser) returns (ok: bool)
      modifies this`Sent
      ensures var plan := old(LookupReplies(number, ReminderTasks(FindReminderList(user.TodoLists))));
              && Extends(Sent, old(Sent), plan)
              && (ok <==> Sent == old(Sent) + plan)
    {
      var replies := LookupReplies(number, ReminderTasks(FindReminderList(user.TodoLists)));
      ok := SendAll(replies);
    }

    /** The reset-password branch (lines 156-161) for the stored `user`: the
        password is changed to `newPassword` and the new details are sent.
        A change refused by the user manager does not stop the reply. */
    method HandleReset(number: string, user: ApplicationUser, newPassword: string) returns (ok: bool)
      requires Valid() && user.UserName in Users && Users[user.UserName] == user
      modifies this`Users, this`Sent
      ensures Valid()
      ensures Users == old(Users) || Users == old(Users)[user.UserName := user.(Password := newPassword)]
      ensures Sent == old(Sent) + (if ok then [Outgoing(number, NewDetails(user.UserName, newPassword))] else [])
    {
      ok := ChangePassword(user.Id, newPassword);
      if Users != old(Users) {
        var key := user.UserName;
        var target := old(Users)[key := user.(Password := newPassword)];
        forall name | name in Users
          ensures Users[name] == target[name]
        {
          if name != key {
            assert old(Users)[name].Id != user.Id;
          }
        }
        assert Users == target;
      }
      if !ok {
        return;
      }
      ok := Send(number, NewDetails(user.UserName, newPassword));
    }

    /** The first part of the try body (lines 84-107): the SMS is saved,
        the sender is looked up under the simplified number and, when
        unknown, given an account (password `password`), told so, and looked
        up again. `user` is what the last lookup found. */
    method Provision(number: string, message: string, password: string) returns (ok: bool, user: Option<ApplicationUser>)
      requires Valid()
      modifies this`Messages, this`Users, this`NextUserId, this`Sent
      ensures Valid()
      ensures || Messages == old(Messages) + [Sms(message, number, OutgoingNumber)]
              || (!ok && Messages == old(Messages))
      ensures Messages == old(Messages) ==> Sent == old(Sent) && Users == old(Users)
      ensures var key := SimplifyNumber(number);
              var replies := ProvisionReplies(number, key in old(Users), password);
              && Extends(Sent, old(Sent), replies)
              && (ok ==> Sent == old(Sent) + replies)
      ensures var key := SimplifyNumber(number);
              var account := Account(old(Users), old(NextUserId), key, number, password);
              && (Users == old(Users) || Users == old(Users)[key := account])
              && (ok && user.Some? ==> key in Users && Users[key] == user.value && user.value == account)
      ensures var key := SimplifyNumber(number);
              ok ==> && FindReminderList(if user.Some? then user.value.TodoLists else None)
                        == old(FindReminderList(OwnedLists(key)))
                     && ReminderTasks(FindReminderList(if user.Some? then user.value.TodoLists else None))
                        == old(StoredReminders(key))
    {
      var key := SimplifyNumber(number);
      ghost var replies := ProvisionReplies(number, key in Users, password);
      ExtendsBy(Sent, [], replies);
      assert Sent + [] == Sent;
      user := None;
      ok := SaveSms(Sms(message, number, OutgoingNumber));
      if !ok {
        return;
      }
      ok, user := FindByName(key);
      if !ok || user.Some? {
        return;
      }
      ok := CreateUser(NewAccount(key, number), password);
      if !ok {
        return;
      }
      ok := Send(number, AccountCreated(key, password));
      ExtendsBy(old(Sent), if ok then replies else [], replies);
      if !ok {
        return;
      }
      ok, user := FindByName(key);
    }

    /** The second part of the try body (lines 109-164): the branch of the
        if/else-if chain that `intent` (the message's Classify) picks, for
        the sender found as `user` (None: no account, so the branches that
        use it throw). */
    method Dispatch(number: string, key: string, intent: Intent, user: Option<ApplicationUser>, newPassword: string, now: int)
      returns (ok: bool)
      requires Valid()
      requires user.Some? ==> key in Users && Users[key] == user.value
      modifies this`Users, this`Lists, this`NextListId, this`Tasks, this`NextTaskId, this`Sent
      ensures Valid()
      ensures var plan := old(IntentReplies(number, intent, key, ReminderTasks(FindReminderList(
                                if user.Some? then user.value.TodoLists else None)), newPassword));
              && Extends(Sent, old(Sent), plan)
              && (ok ==> Sent == old(Sent) + plan)
      ensures intent.Faulted? ==> !ok
      ensures user.None? && !(intent == Help || intent == Unknown) ==> !ok
      ensures || Users == old(Users)
              || (&& intent == ResetPassword && user.Some?
                  && Users == old(Users)[key := user.value.(Password := newPassword)])
      ensures !(intent.Reminder? && user.Some?) ==> Lists == old(Lists) && Tasks == old(Tasks)
      ensures intent.Reminder? && user.Some? ==>
                && RemindersStored(old(Lists), Lists, old(Tasks), Tasks,
                                   old(FindReminderList(user.value.TodoLists)),
                                   old(|ReminderTasks(FindReminderList(user.value.TodoLists))|),
                                   user.value.Id, intent.description, now)
                && (ok ==> Tasks != old(Tasks))
      ensures |Lists| > |old(Lists)| ==> fresh(Lists[|old(Lists)|])
      ensures |Tasks| > |old(Tasks)| ==> fresh(Tasks[|old(Tasks)|])
    {
      match intent
      case Faulted =>
        ok := false;
      case Reminder(description) =>
        if user.None? {
          return false;
        }
        ok := HandleReminder(number, user.value, description, now);
      case Lookup =>
        if user.None? {
          return false;
        }
        ok := HandleLookup(number, user.value);
      case Help =>
        ok := Send(number, HelpMessage);
        ExtendsBy(old(Sent), if ok then [Outgoing(number, HelpMessage)] else [], [Outgoing(number, HelpMessage)]);
      case ResetPassword =>
        if user.None? {
          return false;
        }
        ok := HandleReset(number, user.value, newPassword);
        ghost var reply := [Outgoing(number, NewDetails(user.value.UserName, newPassword))];
        ExtendsBy(old(Sent), if ok then reply else [], reply);
      case Unknown =>
        ok := Send(number, NotUnderstood);
        ExtendsBy(old(Sent), if ok then [Outgoing(number, NotUnderstood)] else [], [Outgoing(number, NotUnderstood)]);
    }

    /** The try body of ProcessSMSAsync (lines 83-164): Provision, then
        Dispatch for the sender it found. `ok` is false exactly when some
        step threw. */
    method Attempt(number: string, message: string, password: string, newPassword: string, now: int)
      returns (ok: bool)
      requires Valid()
      modifies this
      ensures Valid()
      ensures var key := SimplifyNumber(number);
              var plan := old(RunReplies(number, message, key in Users, StoredReminders(key), password, newPassword));
              && Extends(Sent, old(Sent), plan)
              && (ok ==> Sent == old(Sent) + plan)
      ensures Classify(message).Faulted? ==> !ok
      ensures || Messages == old(Messages) + [Sms(message, number, OutgoingNumber)]
              || (!ok && Messages == old(Messages))
      ensures Messages == old(Messages) ==>
                Sent == old(Sent) && Users == old(Users) && Lists == old(Lists) && Tasks == old(Tasks)
      ensures var key := SimplifyNumber(number);
              var account := Account(old(Users), old(NextUserId), key, number, password);
              && (|| Users == old(Users)
                  || Users == old(Users)[key := account]
                  || (Classify(message) == ResetPassword && Users == old(Users)[key := account.(Password := newPassword)]))
              && (ok && !(Classify(message) == Help || Classify(message) == Unknown) ==> key in Users)
      ensures !Classify(message).Reminder? ==> Lists == old(Lists) && Tasks == old(Tasks)
      ensures var key := SimplifyNumber(number);
              var account := Account(old(Users), old(NextUserId), key, number, password);
              Classify(message).Reminder? ==>
                && RemindersStored(old(Lists), Lists, old(Tasks), Tasks,
                                   old(FindReminderList(OwnedLists(key))), old(|StoredReminders(key)|),
                                   account.Id, Classify(message).description, now)
                && (ok ==> Tasks != old(Tasks))
      ensures |Lists| > |old(Lists)| ==> fresh(Lists[|old(Lists)|])
      ensures |Tasks| > |old(Tasks)| ==> fresh(Tasks[|old(Tasks)|])
    {
      var key := SimplifyNumber(number);
      ghost var sent0 := Sent;
      ghost var users0 := Users;
      ghost var account := Account(Users, NextUserId, key, number, password);
      ghost var created := ProvisionReplies(number, key in Users, password);
      ghost var rest := IntentReplies(number, Classify(message), key, StoredReminders(key), newPassword);
      var user;
      ok, user := Provision(number, message, password);
      if !ok {
        ExtendsWeaken(Sent, sent0, created, created + rest);
        return;
      }
      ok := Dispatch(number, key, Classify(message), user, newPassword, now);
      ExtendsThen(Sent, sent0, created, rest);
      if user.Some? && Users != old(Users) && Classify(message) == ResetPassword {
        UpdateTwice(users0, key, account, account.(Password := newPassword));
      }
    }

    /** TwillioSMSParser.ProcessSMSAsync (lines 81-169) for one SMS
        `message` from `number`. `password` and `newPassword` are the
        six-character passwords the run would generate for a new account
        and for a reset; `now` is the clock. When the try body throws, the
        catch sends one apology; when that send throws too, the exception
        leaves the handler. */
    method ProcessSms(number: string, message: string, password: string, newPassword: string, now: int)
      returns (outcome: Handling)
      requires Valid()
      modifies this
      ensures Valid()
      ensures var key := SimplifyNumber(number);
              var plan := old(RunReplies(number, message, key in Users, StoredReminders(key), password, newPassword));
              var apology := Outgoing(number, Apology);
              && (outcome == Completed ==> Sent == old(Sent) + plan)
              && (outcome == Recovered ==>
                    |Sent| > 0 && Sent[|Sent| - 1] == apology && Extends(Sent[..|Sent| - 1], old(Sent), plan))
              && (outcome == Escaped ==> Extends(Sent, old(Sent), plan))
      ensures Classify(message).Faulted? ==> outcome != Completed
      ensures || Messages == old(Messages) + [Sms(message, number, OutgoingNumber)]
              || (outcome != Completed && Messages == old(Messages))
      ensures Messages == old(Messages) ==>
                && Sent == old(Sent) + (if outcome == Recovered then [Outgoing(number, Apology)] else [])
                && Users == old(Users) && Lists == old(Lists) && Tasks == old(Tasks)
      ensures var key := SimplifyNumber(number);
              var account := Account(old(Users), old(NextUserId), key, number, password);
              && (|| Users == old(Users)
                  || Users == old(Users)[key := account]
                  || (Classify(message) == ResetPassword && Users == old(Users)[key := account.(Password := newPassword)]))
              && (outcome == Completed && !(Classify(message) == Help || Classify(message) == Unknown) ==> key in Users)
      ensures !Classify(message).Reminder? ==> Lists == old(Lists) && Tasks == old(Tasks)
      ensures var key := SimplifyNumber(number);
              var account := Account(old(Users), old(NextUserId), key, number, password);
              Classify(message).Reminder? ==>
                && RemindersStored(old(Lists), Lists, old(Tasks), Tasks,
                                   old(FindReminderList(OwnedLists(key))), old(|StoredReminders(key)|),
                                   account.Id, Classify(message).description, now)
                && (outcome == Completed ==> Tasks != old(Tasks))
      ensures |Lists| > |old(Lists)| ==> fresh(Lists[|old(Lists)|])
      ensures |Tasks| > |old(Tasks)| ==> fresh(Tasks[|old(Tasks)|])
    {
      var ok := Attempt(number, message, password, newPassword, now);
      if ok {
        outcome := Completed;
      } else {
        ghost var attempted := Sent;
        outcome := Apologise(number);
        assert outcome == Recovered ==> Sent[..|Sent| - 1] == attempted;
      }
    }

    /** The catch block (lines 165-167): one apology to the sender; when
        that send throws, the exception escapes the handler. */
    method Apologise(number: string) returns (outcome: Handling)
      modifies this`Sent
      ensures old(Valid()) ==> Valid()
      ensures outcome != Completed
      ensures outcome == Recovered ==> Sent == old(Sent) + [Outgoing(number, Apology)]
      ensures outcome == Escaped ==> Sent == old(Sent)
    {
      var apologised := Send(number, Apology);
      outcome := if apologised then Recovered else Escaped;
    }
  }
}
