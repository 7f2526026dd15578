# TODOLists SMS reminders, modelled in Dafny

This project models the SMS front end of the TODOLists web application.
A user texts the Twilio number. `TwillioSMSParser.ProcessSMSAsync` then
runs the following steps:

- It logs the message.
- It finds the sender's account under a canonical form of their phone
  number. When the number is new, it creates the account and texts the
  credentials.
- It works out what the message asks for, in a fixed priority order:
  set a reminder, list the latest reminders, help, reset the password, or
  not understood.
- It answers by SMS.
- When anything throws, it sends one apology.

The model also covers the two to-do entities the handler writes,
`TodoList` and `TodoTask`, including their `LoadFrom` copy methods.

The project has these modules:

- `Wrappers`: `Option` for nullable values, and `Outcome` for an
  expression that may throw.
- `Text`: the string primitives the source uses. These are ASCII case
  mapping, `Trim`, `StartsWith` (modelled as an ordinal comparison), and
  decimal formatting with its inverse.
- `SmsParsing`: the `SMSParsingExtensions` class. `RemoveIfStartsWith` is
  a loop proved equal to the recursive specification
  `FirstPrefixRemoval`. The module also holds `CapitalizeFirstLetter` and
  the four intent tests. `IsReminderIntent` returns `Thrown` when
  `CapitalizeFirstLetter` would meet an empty remainder.
- `PhoneNumber`: `SimplifyNumber` and its properties.
- `Entity`: the `TodoTask` and `TodoList` classes, with constructors for
  the object initialisers and the in-place `LoadFrom` methods.
- `TaskOrdering`: `OrderByDescending(x => x.TaskID).Take(n)`, modelled as
  a stable insertion sort with proofs of permutation, order and selection.
- `SmsHandler`: `ProcessSMSAsync` as the class `SmsParser`.
  - Its fields are the SMS log, the user store, and the log of SMS handed
    to the sender. `Lists` and `Tasks` record every list and task the
    repositories were asked to save. They are write-only logs: nothing
    reads them back. What a run reads is the lists and tasks loaded with
    the user (`user.TodoLists`, `list.TodoTasks`).
  - The collaborators are methods that either do their work or throw
    (`ok == false`).
  - The try body is split into `Provision` (lines 84-107) and `Dispatch`
    (lines 109-164).
  - `Attempt` composes the two, and `ProcessSms` adds the catch block.

Each outgoing SMS is recorded as its recipient and a `Reply` value.
`Render` gives the exact text the source sends for each reply.

The reply contract of each step is written against a plan: the replies
that step sends when nothing throws. `Extends(sent, before, plan)` says
that the log is the old log followed by a prefix of the plan. A run that
completes has sent the whole plan. A run that throws keeps the replies it
already sent, and then has the apology as its last SMS.

Two behaviours of the source are kept as written:

- A failed `IdentityResult` from `CreateAsync` is not checked, so the
  account-created SMS is sent anyway. The second lookup then finds no
  user, and the branches that need one throw.
- A failed `IdentityResult` from `ChangePasswordAsync` is not checked
  either, so the new-details SMS is sent although the password did not
  change. `HandleReset`'s contract allows exactly that: `Users` is
  unchanged while the reply is sent.

Edge cases of the code, kept as written:

- An exact "remind me" yields the description "Remind me", because lines
  48-49 return the whole input when it equals the prefix.
- Every '+' in the number is removed, wherever it stands.
- `SimplifyNumber` is not idempotent: "6161" gives "61" and then "".
- When a step throws, the replies already sent stay sent, so the apology
  is not necessarily the only reply. The apology can itself throw, and
  then the exception leaves the handler.

## Model

| member | source | states |
|---|---|---|
| SmsParsing.FirstPrefixRemoval | TODOList/Domain/Concrete/Twillio/TwillioSMSParser.cs:45-60 | found is true iff some listed prefix starts the input; when none does, the text is the input unchanged |
| SmsParsing.FirstPrefixDecides | TODOList/Domain/Concrete/Twillio/TwillioSMSParser.cs:46-54 | when prefix k is the first in list order that matches, the result is that prefix's removal, even if a later, longer prefix also matches |
| SmsParsing.AfterPrefix | TODOList/Domain/Concrete/Twillio/TwillioSMSParser.cs:48-52 | on an exact match the whole input is kept; otherwise the result is the suffix of the input one character shorter than the input minus the prefix |
| SmsParsing.RemoveIfStartsWith | TODOList/Domain/Concrete/Twillio/TwillioSMSParser.cs:45-60 | the foreach loop returns exactly FirstPrefixRemoval: true iff some prefix matches, processed is the input when none does |
| SmsParsing.CapitalizeFirstLetter | TODOList/Domain/Concrete/Twillio/TwillioSMSParser.cs:62-64 | requires a non-empty input; keeps the length and every character after the first; the first becomes a character that is not a lower-case letter and has the same lower-case form |
| SmsParsing.IsReminderIntent | TODOList/Domain/Concrete/Twillio/TwillioSMSParser.cs:15-28 | the test says yes or throws iff the lower-cased, trimmed message starts "remind me"; on no, the reminder is the original message; on yes, it is non-empty and its first character is not a lower-case letter (ReminderDescription, ReminderExactPrefixes and ReminderThrowsExactly give the exact description or the throw for every message that starts "remind me") |
| SmsParsing.ReminderIsCapitalisedSuffix | TODOList/Domain/Concrete/Twillio/TwillioSMSParser.cs:16-24 | a recognised description is a suffix of the normalised message, with its first letter capitalised |
| SmsParsing.ReminderThrowsExactly | TODOList/Domain/Concrete/Twillio/TwillioSMSParser.cs:18-23 | the test throws exactly when the normalised message is "remind me" plus one character, or plus a separator, "to" or "that" and one character |
| SmsParsing.ReminderDescription | TODOList/Domain/Concrete/Twillio/TwillioSMSParser.cs:15-24 | when the normalised message is "remind me", one character and a non-empty d not starting "to" or "that", the description is d capitalised; when it is "remind me", a character, "to" or "that", a character and a non-empty d, it is also d capitalised; when it is "remind me", a character and exactly "to" or "that", the link word is kept and capitalised ("To", "That") |
| SmsParsing.ReminderDescriptionExample | TODOList/Domain/Concrete/Twillio/TwillioSMSParser.cs:15-24 | "Remind me to buy milk" is a reminder with description "Buy milk" |
| SmsParsing.ReminderExactPrefixes | TODOList/Domain/Concrete/Twillio/TwillioSMSParser.cs:18-24 | an exact "remind me" gives "Remind me"; an exact "remind me to" gives "To" |
| SmsParsing.IsLookupIntentPrefixes | TODOList/Domain/Concrete/Twillio/TwillioSMSParser.cs:30-33 | IsLookupIntent is true iff the lower-cased, untrimmed message starts with "my reminder", "reminder" or "what are my reminder" |
| SmsParsing.IsHelpIntentAcceptsHow | TODOList/Domain/Concrete/Twillio/TwillioSMSParser.cs:35-38 | IsHelpIntent is true iff the lower-cased message starts with "how"; the longer help prefixes add nothing |
| SmsParsing.IsResetPasswordIntentPrefix | TODOList/Domain/Concrete/Twillio/TwillioSMSParser.cs:40-43 | IsResetPasswordIntent is true iff the lower-cased message starts with "reset password" |
| PhoneNumber.Without | TODOList/Domain/Concrete/Twillio/TwillioSMSParser.cs:74 | Replace(c, ""): the result has no c, is no longer than the input and holds only characters of the input |
| PhoneNumber.StripSeparators | TODOList/Domain/Concrete/Twillio/TwillioSMSParser.cs:74 | the two Replace calls leave no space and no '+', no more characters than the number, and only characters of the number |
| PhoneNumber.SimplifyNumber | TODOList/Domain/Concrete/Twillio/TwillioSMSParser.cs:73-79 | the key has no space and no '+' and is no longer than the number |
| PhoneNumber.SimplifyNumberIgnoresSeparator | TODOList/Domain/Concrete/Twillio/TwillioSMSParser.cs:74 | inserting a space or '+' anywhere in a number does not change its key |
| PhoneNumber.SimplifyNumberKeepsPlainNumber | TODOList/Domain/Concrete/Twillio/TwillioSMSParser.cs:73-79 | a number without separators and without a leading "61" is its own key |
| PhoneNumber.SimplifyNumberDropsCountryCodeOnce | TODOList/Domain/Concrete/Twillio/TwillioSMSParser.cs:75-77 | "61" + rest has key rest, even when rest itself starts with "61" |
| PhoneNumber.SimplifyNumberNotIdempotent | TODOList/Domain/Concrete/Twillio/TwillioSMSParser.cs:73-79 | "6161" simplifies to "61", which simplifies to "" |
| PhoneNumber.SimplifyNumberInternational | TODOList/Domain/Concrete/Twillio/TwillioSMSParser.cs:73-79 | "+61" + rest and "61" + rest both have key rest |
| Text.LowerFolds | TODOList/Domain/Concrete/Twillio/TwillioSMSParser.cs:16 | ToLowerInvariant keeps the length, leaves no upper-case letter and changes each character only in case |
| Text.TrimStrips | TODOList/Domain/Concrete/Twillio/TwillioSMSParser.cs:16 | Trim yields a contiguous part of the input that neither starts nor ends with white space, and everything it drops before and after that part is white space |
| Text.MismatchBlocksStartsWith | TODOList/Domain/Concrete/Twillio/TwillioSMSParser.cs:47 | StartsWith compares character by character: a differing character at a position both strings have means the prefix does not match |
| Text.StartsWithTransitive | TODOList/Domain/Concrete/Twillio/TwillioSMSParser.cs:37 | a string starting with "how to" or "how do" starts with "how" as well: a prefix of a prefix is a prefix |
| Text.NatToStringRoundTrip | TODOList/Domain/Concrete/Twillio/TwillioSMSParser.cs:144 | reading back the decimal text of a count gives the count |
| Text.NatToStringInjective | TODOList/Domain/Concrete/Twillio/TwillioSMSParser.cs:124 | different counts print differently |
| TaskOrdering.InsertByTaskIdDesc | TODOList/Domain/Concrete/Twillio/TwillioSMSParser.cs:148 | insertion adds exactly the one task: the result is a permutation of the tasks plus t |
| TaskOrdering.InsertKeepsSorted | TODOList/Domain/Concrete/Twillio/TwillioSMSParser.cs:148 | inserting into a descending sequence keeps it descending |
| TaskOrdering.OrderByTaskIdDesc | TODOList/Domain/Concrete/Twillio/TwillioSMSParser.cs:148 | OrderByDescending is a permutation of the tasks |
| TaskOrdering.OrderByTaskIdDescSorted | TODOList/Domain/Concrete/Twillio/TwillioSMSParser.cs:148 | OrderByDescending puts the highest TaskID first, with null identities last |
| TaskOrdering.LatestReminders | TODOList/Domain/Concrete/Twillio/TwillioSMSParser.cs:139-148 | Take(Math.Min(count, 5)) yields min(count, 5) tasks, all from the list |
| TaskOrdering.LatestRemindersSorted | TODOList/Domain/Concrete/Twillio/TwillioSMSParser.cs:147-148 | the listed tasks are a sub-multiset of the list, in descending TaskID order |
| TaskOrdering.LatestRemindersAreLargest | TODOList/Domain/Concrete/Twillio/TwillioSMSParser.cs:147-148 | every task left out ranks no higher than every task listed |
| Entity.TodoTask.constructor | TODOList/Domain/Entity/TodoTask.cs:9-16 | a new task holds the initialised name, description, colour and list identity; its TaskID is null |
| Entity.TodoTask.LoadFrom | TODOList/Domain/Entity/TodoTask.cs:18-23 | ListID, TaskName, Description and Colour equal other's; TaskID is kept; other is unchanged; a second call with the same other changes nothing |
| Entity.TodoList.constructor | TODOList/Domain/Entity/TodoList.cs:9-18 | a new list holds the initialised name, date, owner and position; ListID and TodoTasks are null |
| Entity.TodoList.LoadFrom | TODOList/Domain/Entity/TodoList.cs:20-26 | requires other's TodoTasks to be non-null; UserID, ListName, DateCreated, LeftPositoned equal other's; TodoTasks holds the same tasks in the same order; ListID is kept; other is unchanged; repeating the call changes nothing |
| SmsHandler.ReminderNamesDiffer | TODOList/Domain/Concrete/Twillio/TwillioSMSParser.cs:124 | lists of different sizes produce different reminder names |
| SmsHandler.ConfirmationNamesTask | TODOList/Domain/Concrete/Twillio/TwillioSMSParser.cs:132 | Render of the reminder confirmation: different task names give different texts |
| SmsHandler.HeaderWording | TODOList/Domain/Concrete/Twillio/TwillioSMSParser.cs:141-145 | Render of the lookup header: exactly "Your last reminder was:" for a count of 1, and "Your last " + the count's decimal text + " reminders were:" otherwise, so character 10 is a digit exactly when the count is not 1 |
| SmsHandler.HeaderNamesCount | TODOList/Domain/Concrete/Twillio/TwillioSMSParser.cs:141-145 | Render of the lookup header: different counts give different headers |
| SmsHandler.ReminderNameRoundTrip | TODOList/Domain/Concrete/Twillio/TwillioSMSParser.cs:124 | ReminderName: "Reminder " followed by the count plus one, which reads back from the name |
| SmsHandler.ClassifyPriority | TODOList/Domain/Concrete/Twillio/TwillioSMSParser.cs:110-163 | Classify: exactly one branch is chosen: reminder (or a fault when its test throws), then lookup, help, reset password and unknown, each only when every earlier test said no |
| SmsHandler.FirstNamed | TODOList/Domain/Concrete/Twillio/TwillioSMSParser.cs:111 | FirstOrDefault: the position of a list with that name, and no earlier list has it; None iff no list has it |
| SmsHandler.FindReminderList | TODOList/Domain/Concrete/Twillio/TwillioSMSParser.cs:134 | the list found is one of the user's lists and is called "Reminders"; a null collection finds none |
| SmsHandler.FindReminderListIsFirst | TODOList/Domain/Concrete/Twillio/TwillioSMSParser.cs:111 | FirstOrDefault finds nothing iff the collection is null or no list in it is called "Reminders"; otherwise it finds the first list so called |
| SmsHandler.ReminderLines | TODOList/Domain/Concrete/Twillio/TwillioSMSParser.cs:149-151 | one "<TaskName>: <Description>" reply per task, in order |
| SmsHandler.LookupRepliesShape | TODOList/Domain/Concrete/Twillio/TwillioSMSParser.cs:134-152 | LookupReplies: no tasks: exactly one "You have no reminders"; otherwise a header for n = min(count, 5), singular iff n is 1, and then n lines for the highest-ranked tasks, highest TaskID first |
| SmsHandler.SmsParser.Send | TODOList/Domain/Concrete/Twillio/TwillioSMSParser.cs:104-105 | SendSMSAsync appends the SMS to the log, or throws and appends nothing |
| SmsHandler.SmsParser.SaveSms | TODOList/Domain/Concrete/Twillio/TwillioSMSParser.cs:84-88 | the SMS repository appends the message, or throws and stores nothing |
| SmsHandler.SmsParser.FindByName | TODOList/Domain/Concrete/Twillio/TwillioSMSParser.cs:91 | when it does not throw, it returns the user filed under the name, or null |
| SmsHandler.SmsParser.CreateUser | TODOList/Domain/Concrete/Twillio/TwillioSMSParser.cs:95-102 | CreateAsync either stores the user under its name, with the next identity and the password, or leaves the store as it was; only a successful call stores |
| SmsHandler.SmsParser.ChangePassword | TODOList/Domain/Concrete/Twillio/TwillioSMSParser.cs:159 | ChangePasswordAsync either sets the password of the user with that identity, leaving every other user alone, or changes nothing |
| SmsHandler.SmsParser.SaveList | TODOList/Domain/Concrete/Twillio/TwillioSMSParser.cs:120 | the list repository appends the list and gives it the next identity, or throws and changes nothing |
| SmsHandler.SmsParser.SaveTask | TODOList/Domain/Concrete/Twillio/TwillioSMSParser.cs:130 | the task repository appends the task and gives it the next identity, or throws and changes nothing |
| SmsHandler.SmsParser.HandleReminder | TODOList/Domain/Concrete/Twillio/TwillioSMSParser.cs:110-132 | a "Reminders" list is created only when the user has none; at most one new task, "Reminder <n+1>" for a list of n tasks (0 for a new or null list), in "black", with the list's identity; when it completes, a task was stored and exactly one reply names it |
| SmsHandler.SmsParser.SendAll | TODOList/Domain/Concrete/Twillio/TwillioSMSParser.cs:149-151 | the loop sends a prefix of the replies in order, and all of them iff no send throws |
| SmsHandler.SmsParser.HandleLookup | TODOList/Domain/Concrete/Twillio/TwillioSMSParser.cs:133-152 | the replies sent are a prefix of LookupReplies for the user's reminder list, and all of it iff nothing throws |
| SmsHandler.SmsParser.HandleReset | TODOList/Domain/Concrete/Twillio/TwillioSMSParser.cs:156-161 | the store is unchanged, or only this user's password becomes the new one; the new-details reply is sent iff the send succeeds, even when the change was refused |
| SmsHandler.SmsParser.Provision | TODOList/Domain/Concrete/Twillio/TwillioSMSParser.cs:84-107 | the SMS is logged unless the save throws, and a failed save ends the step with no account created and no reply sent; an unknown sender gets the account stored under the simplified number and the account-created reply before anything else; the user found is the stored account, and so are its reminder list and tasks |
| SmsHandler.SmsParser.Dispatch | TODOList/Domain/Concrete/Twillio/TwillioSMSParser.cs:109-164 | the replies are a prefix of the chosen branch's plan, and all of it when nothing throws; a faulted test or a missing user in a branch that needs one throws; only the reminder branch touches lists and tasks, and only the reset branch the user store |
| SmsHandler.SmsParser.Attempt | TODOList/Domain/Concrete/Twillio/TwillioSMSParser.cs:83-164 | the try body sends a prefix of the account-created reply followed by the branch replies, all of them when nothing throws; it logs the SMS, provisions the account and stores reminders as described above; when the SMS save throws, nothing else changes: no reply, no account, no list or task |
| SmsHandler.SmsParser.ProcessSms | TODOList/Domain/Concrete/Twillio/TwillioSMSParser.cs:81-169 | completed: exactly the planned replies were sent; recovered: a prefix of them and then the apology as the last SMS; escaped: only a prefix; a faulted reminder test never completes; logging, accounts and reminder storage are as in Attempt; when the SMS save throws, the apology is the only SMS sent and the store is untouched |
| SmsHandler.SmsParser.Apologise | TODOList/Domain/Concrete/Twillio/TwillioSMSParser.cs:165-167 | the catch block appends exactly the apology, or its send throws and nothing is appended; the user store stays well formed |

## Left out

- async/await: the handler is one sequential method, and no two messages are handled at once.
- ASP.NET Identity internals: the user store is a map from user name to user. Identities are handed out in sequence. The stored password is the plain password, with no hashing, and the SecurityStamp is not modelled.
- The Guid-derived six-character passwords at lines 94 and 157 are the parameters `password` and `newPassword`; their length is not checked.
- DateTime.Now is the parameter `now`, an opaque integer, and the Twilio:OutgoingNumber setting is the constant field `OutgoingNumber`.
- Case mapping, Trim and StartsWith are modelled on ASCII only. Culture rules, Unicode white space and non-ASCII letters are not modelled.
- Strings are sequences of Unicode scalar values, while C# `Length` and `Substring` count UTF-16 code units. For text in the Basic Multilingual Plane the two agree. A character outside it (an emoji, say) right after a matched prefix is dropped whole by `AfterPrefix`, where the source drops only its first code unit and keeps a lone surrogate. `CapitalizeFirstLetter` likewise treats such a character as one unit. The lengths 10, 13 and 15 in `ReminderThrowsExactly` count scalar values.
- Null strings are not modelled. A null message, number or ListName would throw in the source.
- The `User` and `ParentList` navigation properties, lazy loading and Entity Framework fix-up are not modelled. `user.TodoLists` and `list.TodoTasks` are the values loaded with the user, and saving a list or task does not add it to them.
- Reads and writes of lists and tasks are not connected. The contracts of
  `HandleReminder`, `HandleLookup`, `Dispatch`, `Attempt` and `ProcessSms`
  hold for one run, against whatever lists and tasks the user was loaded
  with. They say nothing about what a later run sees.
  - In the source, the next run reloads the user and sees the saved list
    and tasks. So a second reminder is "Reminder 2" in the existing list,
    and a later lookup lists it.
  - In the model, an account is created with no lists, and no step adds
    any. So, starting from the constructor, every user owns no list in
    every reachable state.
  - Each completed reminder is therefore "Reminder 1", in a newly saved
    "Reminders" list, and a lookup always answers "You have no reminders".
    Other answers arise only from a user record built with lists already
    in it.
- Entity.TodoList.LoadFrom: TodoTasks is a sequence value, so the copy is a new collection by construction. Aliasing of the IList and later mutation through either reference are not modelled.
- TaskOrdering.OrderByTaskIdDesc: the model is a stable sort, like OrderByDescending, but the contract does not state stability, only the permutation and the descending order.
- The 32-bit overflow of `Count + 1` and of the identities is not modelled; integers are unbounded.
- Repository and sender failures are modelled as exceptions. Their causes, and any partial writes inside a failing call, are not modelled.
- The constructor at lines 171-181 only wires the collaborators. SmsParser's constructor starts from an empty store instead.
