# A verified model of Finch's and libpurple's stateful cores

This project models, in Dafny, the parts of the repository whose correctness rests on state that has to agree with
itself, and proves what they keep.

**The buddy list** (`libpurple/blist.c`) is a tree of groups, contacts and chats, and buddies, held in prev, next,
parent and child pointers, with two hash tables of buddies, a table of group names, three counters on every contact and
group, and a lazily computed priority buddy. Class `BuddyList` has these as fields and the operations as methods that
update them; nodes are ids in a mutable store, and a freed node is in no field any more, so that following a freed
pointer is a proof obligation that fails. `Valid` (`BlistModel.dfy`) says what has to hold between calls:

- sibling pointers are mutual inverses and spell, from the root and every child pointer, exactly the lists that the
  parent pointers tell; kinds fit their level; no node stands twice;
- the global buddy table has exactly one entry per buddy in the tree, under its normalized name, account and group; each
  account's table is its part of that; the name table has exactly the listed groups;
- every contact's and group's counters are what counting the tree gives. One is not: `totalsize` of a group is not
  decremented when an emptied contact is deleted, so it is the number of children plus a ghost count, `drift`, of the
  contacts deleted from the group;
- a priority buddy marked valid is the best one.

An operation in progress breaks parts of this; `Sound` with an `Excuse` says which. Each transition (a node is unlinked,
counted out, unfiled, freed) is a function on states with a lemma that it keeps `Sound` up to the excuse, and each
method's contract gives the new tree, nodes and drift as functions of the old ones. `BlistOps.Allowed` says, in terms of
what a caller can look at, when an operation may be asked for, and `BlistRun.Run` performs any sequence of operations.

Files: `BlistSeq`, `BlistLinks`, `BlistTree`, `BlistSizes`, `BlistIndex` and `BlistPriority` are the layers of the
invariant, and `BlistMeaning` what it comes to, told by the fields; `BlistSteps`, `BlistMoves`, `BlistGroups`,
`BlistFloat`, `BlistBuddies`, `BlistMerge`, `BlistStatus`, `BlistSweep`, `BlistRename`, `BlistScan`, `BlistWalk` and
`BlistPurge` the transitions and the plain definitions that results are compared with; `BlistPlaces` where a node stands
after it has been moved, told by its neighbours, and `BlistOrder` in which order a walk meets the nodes; `Blist` the
class; `BlistOps` and `BlistRun` whole runs; `BlistExamples` a list at which the conditions fail.

**The saved list** (`BlistXml`, on the element trees of `Xml`): writing, reading, and what survives both, with all aliases,
components and settings. `BlistFormat` says what stands in the file, by the names of elements and attributes, and which
nodes are kept. `BlistLoad` performs the loading on a `BuddyList`, by its own operations; `BlistShape` says when a tree
spells what has been read.

**Accounts**: settings with their migrations (`AccountSettings` the specification and round trip, `AccountStore` the
code, `AccountFormat` the file), the order of the list and the keys that change it (`AccountList`), authorization
requests (`AccountRequests`), usernames cut and joined (`UserSplits`). Deleting an account walks the live buddy list and
is a method of `BuddyList`.

**Option scanning** (`finch/getopt.c`): `GetoptSpec` is a one-pass parser that sets operands aside; `Getopt` the scanner
that permutes the vector in place between calls; `GetoptProofs` the connection; `GetoptMeaning` what is reported of each
kind of option, told by the vector alone; `GetoptSign` what a sign changes. `--` ends the options, as Guideline 10 of
section 12.2 of the Base Definitions volume of IEEE Std 1003.1 has it.

**The ring buffer** (`CircBuffer`): a growable buffer as a queue of bytes.

## Where the code falls short of its intent

The model follows the code; the theorems say exactly when it does what was meant, and examples show that it need not.

- A comment (`libpurple/blist.c:1625`) says that removing the emptied contact will see to the group's `totalsize`, but
  that code (`libpurple/blist.c:2104-2125`) does not decrement it. `BlistOps.TotalsDrift` and `BlistRun.TotalsOverRun` say
  what `totalsize` is instead.
- `purple_blist_add_buddy` and `purple_blist_rename_buddy` overwrite a table entry with an equal key
  (`libpurple/blist.c:1693`, `libpurple/blist.c:993`), and so do merging contacts and loading a file. The list stays in order
  if and only if nobody else in the group has the key (`AddBuddy`, `RenameBuddy`, `MergeContact`, `BlistLoad.Load`;
  `AddOverwrites`, `RenameOverwrites`, `MergeOverwrites`, `StandsTwice`). Moving a contact checks, and needs no such condition
  (`AddContact`).
- Merging two groups reads the moved contact's children after `purple_blist_add_contact`, which has freed the contact if
  all of its buddies were duplicates (`libpurple/blist.c:1228-1229`, `libpurple/blist.c:1918-1919`). `RenameGroup` says that
  this happens if and only if some contact of the source has buddies and none whose key is free in the destination
  (`MergeReadsFreed`); disjoint keys are the special case in which nothing is lost (`UnitedDisjoint`).
- A group renamed to the name of another listed group that is equal ignoring case takes the simple path
  (`libpurple/blist.c:1210`). The list is then in order if and only if no other group has the new collation key
  (`RenameUnnames`).
- `purple_blist_remove_group` removes the name's entry even for a group that was never listed
  (`libpurple/blist.c:2275-2276`). `RemoveGroup` says when that is harmless (`RemovalUnnames`).
- In the ring buffer, filling to exactly the end and draining leaves the fill pointer behind the last byte
  (`libpurple/circbuffer.c:117`); growing from there breaks the order. `AppendKeepsCongruenceExactly` has the exact condition.
- `getopt` strips the sign in front of the option string on the first call only (`finch/getopt.c:345-354`). Later calls look
  the sign up as an option, which takes an argument if `:` follows it, and do not find the `:` that asks for a code of its own
  when an argument is missing (`finch/getopt.c:531`, `finch/getopt.c:637`). `GetoptSign` has the exact condition for a run to
  be what the option string without the sign promises, and three vectors for which it is not.
- The key handler moves down with a step of two, with a comment that blames libpurple (`finch/gntaccount.c:751`).
  The step is right, given that the target index is counted before the account is taken out (`KeyPressed`).
- An account that is to become a Yahoo! JAPAN account but lacks a server setting keeps its old settings too, against the
  comment that they are always removed (`libpurple/account.c:551-560`; `OldSettingsGone`, `OldSettingsStay`).
- `migrate_icq_server` compares a string that its own assignment has freed (`libpurple/account.c:573-583`), if and only if
  the account is on ICQ and has one of the two plain servers (`ReadsFreed`; `PlainBecomesSecure`).
- An account's settings come back from the file as they were only because the core block is written first (`CoreFirst`).

## Model

| member | source | states |
|---|---|---|
| BlistRun.TotalsOverRun | libpurple/blist.c:1613-2300 | Over any stretch of any run in which a group exists, its totalsize minus the number of its children grows by exactly the number of contacts deleted from it, and is otherwise constant. |
| BlistOps.TotalsDrift | libpurple/blist.c:2104-2125 | The same for each single operation, of every kind. |
| BlistRun.Do | libpurple/blist.c:1486-2300 | One operation: if its caller could see that it may be asked for, the list is in order afterwards and tree, nodes and drift are what that operation makes of them; if not, nothing happens. |
| BlistRun.Run | libpurple/blist.c:1571-2300 | Every run from an empty list, of creations, additions, moves, merges, renames, removals, status changes, connects, disconnects, account deletions and priority queries in any order, ends with the sibling pointers spelling the tree, the buddy tables and the name index holding exactly what is in it, all cached sizes equal to counts, and every valid priority the best buddy; and each operation whose caller may ask for it has had its effect. |
| BlistMeaning.PointersMean | libpurple/blist.c:1632-1700 | In a list in order each child knows its parent and the children next to it, and the parent, or the root, the first one. |
| BlistMeaning.ContactCounts | libpurple/blist.c:1613-1631 | A contact's counters are its buddies, those of connected accounts, and those of them whose presence is online. |
| BlistMeaning.GroupCounts | libpurple/blist.c:1613-1631 | A group's are its children and the contacts deleted from it, the contacts with a connected buddy and chats of connected accounts, and the contacts with an online buddy and those chats. |
| BlistMeaning.TablesMean | libpurple/blist.c:1639-1704 | Under a key the buddy tables have exactly the buddy in the tree with that normalized name, account and group. |
| BlistMeaning.NamesMean | libpurple/blist.c:2013-2077 | Under a collation key the name index has exactly the listed group whose name has that key. |
| BlistMeaning.BestMeans | libpurple/blist.c:681-728 | Nobody on a connected account is more available than a valid priority buddy; among equals it is the first or the last, as preferred; with nobody connected it is the first buddy of all. |
| Blist.BuddyList.constructor | libpurple/blist.c:730-766 | A new list is empty and in order, with an empty table for each account. |
| Blist.BuddyList.UnlinkNode | libpurple/blist.c:1632-1637 | Taking a node out of its siblings writes exactly the fields of its neighbours, the parent's child pointer or the root. |
| Blist.BuddyList.Link | libpurple/blist.c:1662-1700 | Linking behind a sibling, or in front of the first child, writes exactly the fields of the node, its neighbours and its parent. |
| BlistLinks.UnlinkKeeps | libpurple/blist.c:1632-1637 | Unlinking a listed node takes it out of its own sibling list, leaves all other lists as they are, and prev and next stay inverse everywhere. |
| BlistLinks.LinkKeeps | libpurple/blist.c:1662-1700 | Linking a node that is in no list puts it behind the given sibling, or in front, and leaves all other sibling lists as they are. |
| BlistLinks.FreeKeeps | libpurple/blist.c:2167-2200 | Freeing a node that is in no list and has no children leaves every sibling list well formed. |
| Blist.BuddyList.LastSibling | libpurple/blist.c:65-80 | The pointer walk along next ends at the last sibling. |
| Blist.BuddyList.NewGroup | libpurple/blist.c:1796-1822 | A group of that collation key is returned if there is one; otherwise a group outside the list is made. |
| Blist.BuddyList.NewBuddy | libpurple/blist.c:1367-1392 | A new buddy is outside the tree, not filed and offline; the rest of the list is untouched and in order. |
| Blist.BuddyList.AddGroup | libpurple/blist.c:2013-2077 | The group goes behind the group given, or in front; a listed group is moved. The list is in order afterwards if and only if no other listed group has the collation key of its name. |
| Blist.BuddyList.RemoveGroup | libpurple/blist.c:2252-2300 | A group with children stays; an empty one leaves the list and the name index. If it was not listed, the list stays in order if and only if no listed group goes by its name. |
| BlistExamples.RemovalUnnames | libpurple/blist.c:2267-2277 | A valid list, and a group outside it whose removal takes the name of a listed group out of the index. |
| Blist.BuddyList.TargetGroup | libpurple/blist.c:1493-1506 | The group asked for, or else the one with the default name, made if there is none, is appended to the list unless its name is there already. |
| Blist.BuddyList.AddChat | libpurple/blist.c:1486-1569 | The chat leaves the group it was in and stands right behind the node given, or first in the group; the others of both groups keep their order, and parents and all counters stay exact. |
| Blist.BuddyList.AddContact | libpurple/blist.c:1832-1977 | The contact stands right behind the node given, or first in the group, and all other nodes stand as they stood. Into another group, without any condition on keys: the buddies whose name and account nobody there has come along in order, the others are deleted, and a contact that loses all of them goes too, its old group's drift growing by one; within a group it is only moved. Indexes and counters are exact again. |
| Blist.BuddyList.MoveContact | libpurple/blist.c:1858-1959 | The same with the group known: moved within its group, or emigrating; its place, by what stands right before it, its survivors, the casualties, drift and new keys. |
| Blist.BuddyList.RefileBuddy | libpurple/blist.c:1872-1921 | One turn of the loop: the buddy keeps its place under a new key exactly if that is free; otherwise it is removed, and the contact with it exactly if it was the last one. |
| Blist.BuddyList.LandContact | libpurple/blist.c:1925-1959 | The counters of both groups follow the contact, which is linked in its new place; everything agrees again. |
| Blist.BuddyList.RefileBuddies | libpurple/blist.c:1876-1922 | The loop that takes a contact's buddies to the other group's keys keeps exactly those whose key is free, in order, and tells whether the contact went with the last one; the group gains exactly their keys. |
| BlistFloat.KeptAll | libpurple/blist.c:1876-1922 | If all keys are free in the destination, all buddies are kept. |
| Blist.BuddyList.AddBuddy | libpurple/blist.c:1571-1717 | The buddy stands right behind the buddy given, first in the contact given, or alone in a new contact at the end of the group; the contact it leaves goes exactly if it was the only one in it, and nothing else moves. Dropping it on itself changes nothing. The list is in order afterwards if and only if no other buddy of the destination group has its key, and otherwise but for that buddy's entry. |
| BlistBuddies.Clash | libpurple/blist.c:1693-1703 | If two buddies in the tree have one key, no tables whatever are right: they can lead to one of the two only. |
| BlistExamples.AddOverwrites | libpurple/blist.c:1688-1702 | A valid list in which another buddy of the destination group has the key of the buddy that is added. |
| BlistExamples.MergeOverwrites | libpurple/blist.c:2001-2010 | A valid list in which a merge of two contacts takes a buddy's entry away. |
| Blist.BuddyList.TakeBuddyAway | libpurple/blist.c:1613-1660 | The buddy leaves contact, counters, and, if the group changes, tables; the contact it leaves empty goes, group drift growing by one, while the buddy itself is in no list. |
| Blist.BuddyList.PutBuddy | libpurple/blist.c:1662-1704 | Linked, counted in and filed; in order if and only if nobody else in the group has the key. |
| Blist.BuddyList.AddBuddyAlone | libpurple/blist.c:1597-1609 | With no contact given, a new contact at the end of the group takes the buddy, also when the old contact is lost on the way. |
| Blist.BuddyList.MergeBuddies | libpurple/blist.c:2001-2010 | Each buddy goes behind the one before, to the last of them; the loop's saved next pointer stays good although the source is deleted with its last buddy. Whoever in the target's group has a key of theirs loses its entry; everything else is in order, and the list is if and only if there is nobody. |
| Blist.BuddyList.MergeContact | libpurple/blist.c:1979-2011 | All buddies of the source stand, in order, right behind the buddy given or at the end of the contact given; nobody is lost, the emptied source is deleted, nothing else moves, and all counters are exact. Merging with itself, or an empty contact, changes nothing. The list is in order afterwards if and only if nobody else in the target's group has a key of theirs, and otherwise but for the entries of those who have. |
| BlistMerge.OverwrittenAre | libpurple/blist.c:1693-1703 | Those who lose their entries are exactly the others that the tables have under the keys of the buddies that move. |
| BlistMerge.SplicedAt | libpurple/blist.c:1996-2010 | Putting nodes one behind the other after the i-th one gives that prefix, then all of them in order, then the rest. |
| Blist.BuddyList.DropBuddy | libpurple/blist.c:2128-2205 | Removing a buddy, also one whose contact is in the middle of being moved: it leaves its contact, table entry and counters; the contact is deleted exactly if nobody is left in it. |
| Blist.BuddyList.PluckBuddy | libpurple/blist.c:2145-2200 | Unlinked, counted out, unfiled and freed; what may be left open is an emptied contact only. |
| Blist.BuddyList.TakeOut | libpurple/blist.c:2145-2173 | Unlinked and counted out, and the priority invalidated if it was this buddy and others remain; no other priority becomes wrong. |
| Blist.BuddyList.RemoveBuddy | libpurple/blist.c:2128-2205 | A buddy in the tree goes, and its contact exactly if nobody else is in it; nothing else moves. One outside the tree is only freed. |
| Blist.BuddyList.RemoveContact | libpurple/blist.c:2079-2126 | The contact and all its buddies go, whether by the loop that ends with the last buddy deleting the contact, or at once if it was empty; its group's drift grows by exactly one. |
| Blist.BuddyList.DropAllBuddies | libpurple/blist.c:2088-2101 | The loop over the buddies of a contact never follows a freed node and ends with the contact itself gone. |
| Blist.BuddyList.DeleteEmptyContact | libpurple/blist.c:2104-2125 | An empty contact leaves the tree; the group's totalsize is not decremented: its drift grows by one. |
| Blist.BuddyList.RemoveChat | libpurple/blist.c:2207-2250 | The chat leaves its group and counters, and no table entry changes. |
| Blist.BuddyList.RenameBuddy | libpurple/blist.c:975-1010 | The buddy is filed under the key of its new name. The list is in order afterwards if and only if no other buddy of its group has that key. |
| BlistExamples.RenameOverwrites | libpurple/blist.c:982-1003 | A valid list in which the new name is another buddy's of the group. |
| Blist.BuddyList.UpdateBuddyStatus | libpurple/blist.c:901-953 | When a buddy of a connected account changes presence, the online counts of contact and group equal a recount, and the contact's priority is not left valid and wrong. |
| Blist.BuddyList.ComputePriorityBuddy | libpurple/blist.c:681-728 | The fold over the buddies ends with the best connected one, the first or the last among equals as preferred, or the first buddy if none is connected, and marks it valid. |
| BlistPriority.BestIsUnique | libpurple/blist.c:681-728 | The specification of the priority buddy determines it. |
| BlistPriority.BestNext | libpurple/blist.c:689-716 | One more turn of the fold: the held buddy is the best of the buddies seen so far. |
| BlistPriority.BestWithout | libpurple/blist.c:2167-2172 | Removing a buddy that is not the priority needs no recomputation: the best of the rest is the same. |
| Blist.BuddyList.GetPriorityBuddy | libpurple/blist.c:2302-2310 | Whatever has happened since it was computed, the buddy returned is the best one now. |
| Blist.BuddyList.Connect | libpurple/blist.c:2669-2709 | After an account connects, every contact's and group's counts equal a recount under the new set of connected accounts. |
| Blist.BuddyList.Disconnect | libpurple/blist.c:2711-2794 | After an account disconnects, its buddies in the list are offline and everything else about the nodes is as it was, every count equals a recount, and no priority is left valid that the disconnect changed. |
| Blist.BuddyList.ConnectContact | libpurple/blist.c:2683-2697 | The innermost loop counts the contact's buddies of the account in, and the group whenever the contact starts to count. |
| Blist.BuddyList.DisconnectContact | libpurple/blist.c:2733-2762 | The innermost loop counts them out, collects them, and invalidates the priority if there was one. |
| Blist.BuddyList.ConnectGroup | libpurple/blist.c:2682-2706 | After a group has been swept exactly its children are recounted, and no priority of theirs is left valid that the connect changed. |
| Blist.BuddyList.DisconnectGroup | libpurple/blist.c:2729-2786 | The same for a disconnect; exactly the account's buddies in the group are collected. |
| BlistSweep.ConnectedValid | libpurple/blist.c:2669-2709 | A sweep that has recounted every node leaves the list in order for the new set of connected accounts. |
| BlistSweep.DisconnectedValid | libpurple/blist.c:2711-2794 | The same when the account's buddies have also gone offline. |
| Blist.BuddyList.RenameGroup | libpurple/blist.c:1190-1312 | With the name of another listed group, different also ignoring case: if every contact that has buddies keeps one, the children stand in order at the end of that group, exactly the buddies are gone whose name and account somebody there has, the emptied group leaves list and index, nothing else moves, and everything is exact. Otherwise, and only then, the first contact that loses them all is freed and its child pointer read next, which is where the model stops. With any other name only the name and the index change, and the list is in order if and only if no other group has the new collation key. |
| Blist.BuddyList.MoveChildren | libpurple/blist.c:1214-1243 | Each child goes behind the last one, contacts keep the order of their buddies through the re-adds, chats keep their place between them; the loop comes to the end if and only if every contact with buddies keeps one, and else stops at the first that does not. |
| Blist.BuddyList.MoveToEnd | libpurple/blist.c:1225-1242 | One turn of that loop: the child survives if and only if it had no buddies or keeps one, judged by the lists as they were in the beginning; then it is at the end of the destination, and the buddies of the later ones are as free there as before. |
| BlistRename.MovedSurvives | libpurple/blist.c:1228-1229 | After the contact has been added to the other group it still exists exactly if it had no buddies or one whose key was free. |
| BlistExamples.MergeReadsFreed | libpurple/blist.c:1228-1229 | A valid list, with one buddy in both groups by key, whose merge frees a contact and reads it. |
| BlistRename.UnitedDisjoint | libpurple/blist.c:1209-1249 | With no key in common nothing is lost: the destination's children are its own, then all of the source's in order, and each contact has the buddies it had, in order. |
| BlistRename.GroupRenamedValid | libpurple/blist.c:1250-1273 | A plain rename leaves the list in order if and only if nobody else is indexed under the new name. |
| BlistExamples.RenameUnnames | libpurple/blist.c:1209-1271 | A valid list with groups called a and A that is out of order after the first is renamed to A. |
| Blist.BuddyList.ReaddBuddies | libpurple/blist.c:1222-1233 | Adding every buddy of a moved contact again where it is changes neither the tree nor the tables. |
| Blist.BuddyList.FindBuddy | libpurple/blist.c:2432-2456 | The lookup group by group returns what a left-to-right scan of the whole tree finds first. |
| Blist.BuddyList.FindBuddies | libpurple/blist.c:2482-2508 | With a name: everything a scan of the tree finds, last one first. |
| Blist.BuddyList.FindAccountBuddies | libpurple/blist.c:2509-2513 | Without a name: exactly the buddies of the account that are in the tree. |
| BlistScan.LookupIsScan | libpurple/blist.c:2458-2472 | What the table holds under a key is what scanning the group finds: no buddy, or exactly one. |
| BlistScan.CacheIsScan | libpurple/blist.c:112-128 | The values of an account's own table are exactly its buddies in the tree. |
| Blist.BuddyList.AddAccountTable | libpurple/blist.c:111-121 | A fresh table for an account is right if and only if no buddy in the tree is on that account. |
| Blist.BuddyList.RemoveAccountTable | libpurple/blist.c:123-127 | Dropping an account's table is right if and only if no buddy at all is on that account. |
| Blist.BuddyList.NextNode | libpurple/blist.c:836-848 | The next node is the first of what remains of the preorder, below or past the node; the recursion up the tree terminates. |
| Blist.BuddyList.NodeNext | libpurple/blist.c:850-863 | With offline nodes the next of the remaining preorder, without them the next that is not a buddy of a disconnected account. |
| Blist.BuddyList.Walk | libpurple/blist.c:836-863 | Walking from the root terminates and visits the preorder of the tree, or exactly its visible part. |
| BlistWalk.PreorderIsAll | libpurple/blist.c:836-863 | The preorder holds exactly the nodes of the tree. |
| BlistWalk.PreorderOnce | libpurple/blist.c:836-863 | It holds every node once. |
| BlistOrder.GroupFirst | libpurple/blist.c:836-863 | A group comes before all that is below it. |
| BlistOrder.GroupsInOrder | libpurple/blist.c:836-863 | All that is below one group comes before a later group and all that is below that. |
| BlistOrder.ChildrenInOrder | libpurple/blist.c:836-863 | Within a group, a contact or chat and its buddies come before a later one and its buddies. |
| BlistOrder.BuddiesInOrder | libpurple/blist.c:836-863 | A contact comes before its buddies, and they in order: with these, and each node once, the walk is determined. |
| BlistOrder.VisibleAre | libpurple/blist.c:850-863 | Without offline nodes exactly the buddies of accounts that are not connected are left out. |
| BlistOrder.VisibleWithin | libpurple/blist.c:850-863 | The others come in the same order. |
| BlistOrder.ScannedAre | libpurple/blist.c:2432-2472 | What a lookup scans: the buddies of the contacts of the groups, in the order of the walk. |
| BlistOrder.MatchingAre | libpurple/blist.c:2432-2472 | A scan finds exactly those on the account whose normalized name is the one looked for. |
| BlistOrder.MatchingWithin | libpurple/blist.c:2432-2472 | It finds them in the order in which they are scanned. |
| BlistOrder.LastFirst | libpurple/blist.c:2482-2508 | The list of those found is the other way round. |
| Blist.BuddyList.DeleteAccount | libpurple/account.c:3030-3063 | Walking the live tree while removing nodes from it never follows a freed node. Exactly the buddies and chats of the tree whose account is this one are gone, and the contacts that had buddies and none on another account; every other node has its parent and its place in the order; totals drift by one per emptied contact, and nothing is filed under the account. |
| Blist.BuddyList.PurgeContact | libpurple/account.c:3041-3050 | The innermost loop fetches the next sibling before the buddy, and with it perhaps the contact, goes. |
| Blist.BuddyList.PurgeGroup | libpurple/account.c:3038-3062 | The middle loop fetches the next sibling before the contact or chat goes. |
| BlistPurge.PurgedIs | libpurple/account.c:3038-3062 | What the three loops remove, told by the accounts of the nodes alone. |
| BlistPurge.NothingFiled | libpurple/account.c:3030-3063 | Once the account's nodes are gone, no table entry is the account's. |
| BlistPurge.StillThere | libpurple/account.c:3035-3061 | A node that has not been removed still has a good next pointer, to its old next sibling, if none behind it has been removed. |
| BlistXml.RoundTrip | libpurple/blist.c:437-605 | A list that is written and read into an empty one is exactly what is kept of it, in order: without flagged nodes, buddies and chats whose account cannot be found, nameless buddies and emptied contacts, and with the default group name of the reader's language; if and only if the names of the groups kept all compare different. |
| BlistXml.NothingLost | libpurple/blist.c:133-306 | If nothing is flagged or empty, every account is found under its username and protocol, and no protocol is prpl-oscar, every group, contact, chat and buddy comes back in its place with its name, alias, components and settings. |
| BlistFormat.ListWritten | libpurple/blist.c:133-368 | The file, by the names of its elements and attributes: every node that is not flagged, in order, with its account, name, alias, components that are not NULL, and settings with their types. |
| BlistFormat.BuddyBelongs | libpurple/blist.c:466-478 | The protocol of a buddy is the attribute proto, or else protocol. The account is looked up under it, but for prpl-oscar under prpl-icq if and only if its name has digits only, and else under prpl-aim; a buddy without such an account is not read. |
| BlistFormat.ChatBelongs | libpurple/blist.c:531-549 | The same of a chat, for which prpl-oscar is a protocol like any other. |
| BlistFormat.OldForms | libpurple/blist.c:439-457 | A contact may be called person; a setting without a type is a string; one of another type, without a name or without text is skipped. |
| BlistFormat.GroupRead | libpurple/blist.c:578-603 | A group element: the first group that compares equal by name, or a new one, goes to the end with what it had and, behind that, what the element holds; the others stay in order. |
| BlistFormat.StrayRead | libpurple/blist.c:503-576 | A contact without a group goes in front of the default one, a chat in front of the one for chats; the group is made at the end if there is none, for a contact even if it keeps no buddy. |
| BlistFormat.KeptIf | libpurple/blist.c:459-501 | A buddy is kept if and only if it is not flagged, has a name, and its account is found, prpl-oscar standing for one of the other two; an empty alias is none. |
| BlistFormat.ChildKeptIf | libpurple/blist.c:503-576 | A contact is kept if and only if it is not flagged and keeps a buddy, a chat if and only if it is not flagged and its account is found. |
| BlistFormat.KeptBuddiesAre | libpurple/blist.c:503-529 | The buddies of a contact that are kept stay in order. |
| BlistFormat.KeptChildrenAre | libpurple/blist.c:578-603 | So do the contacts and chats of a group. |
| BlistFormat.KeptGroupsAre | libpurple/blist.c:578-603 | All groups that are not flagged are kept, in order, the one with the writer's default name under the reader's. |
| BlistFormat.KeptSettings | libpurple/blist.c:439-457 | A setting is kept, with its value, if and only if it is no empty or null string. |
| BlistFormat.KeptParts | libpurple/blist.c:531-576 | A component is kept if and only if it is not NULL, an empty one as NULL. |
| BlistXml.WriteList | libpurple/blist.c:336-368 | The element tree has the groups that are not flagged, in order. |
| BlistXml.WriteGroup | libpurple/blist.c:272-306 | A group's element has its settings, then its contacts and chats that are not flagged, and no name if it is the default one. |
| BlistXml.WriteContact | libpurple/blist.c:211-243 | A contact's element has its buddies that are not flagged, then its settings. |
| BlistXml.FindAccount | libpurple/account.c:3139-3163 | The first account of the protocol whose username normalizes to the same. |
| BlistXml.FoundFirst | libpurple/account.c:3139-3163 | If no earlier account of the protocol answers to the name, the one that does is found, and if none does, none is. |
| BlistXml.FoundItself | libpurple/account.c:3139-3163 | An account is found under its own name if and only if no earlier account of its protocol has a name that normalizes to the same. |
| BlistXml.ParseBuddy | libpurple/blist.c:459-501 | A buddy needs a known account, found as BuddyBelongs says, and a name; its alias and settings are read. |
| BlistXml.ParseContact | libpurple/blist.c:503-529 | Buddies and settings in any order; a contact left without buddies is dropped. |
| BlistXml.ParseChat | libpurple/blist.c:531-576 | A chat needs a known account; components, alias and settings are read. |
| BlistXml.Roster.ParseGroup | libpurple/blist.c:578-603 | The group of that name, or a new one, goes to the end and takes up the settings, contacts and chats, with their aliases, components and settings; with an empty name there is no group, and contacts go in front of the default group, chats in front of the one for chats. |
| BlistXml.Roster.Stray | libpurple/blist.c:503-576 | Contacts and chats for which no group was given. |
| BlistXml.Roster.Load | libpurple/blist.c:605-624 | All groups of the file, one after the other, onto the list there is. |
| BlistLoad.Restart | libpurple/blist.c:605-624 | A list that was saved, read into an empty buddy list by the list's own operations, is in order and its tree spells, group by group, contact by contact and buddy by buddy, what is kept of it, if and only if no two groups of that have names that compare equal and no group has two buddies of one key. |
| BlistLoad.Load | libpurple/blist.c:605-624 | Whatever the file holds goes onto the list that there is. The list is in order afterwards, and spells what is read, if and only if no group that is read has two buddies of one key. |
| BlistLoad.ParseGroup | libpurple/blist.c:578-603 | The group of that name, or a new one, is the last one of the tree, with the children of its element behind those it had; without a name the children go to the default groups. The only failure is two buddies of one key in a group. |
| BlistLoad.ParseStray | libpurple/blist.c:503-576 | A contact or chat without a group goes in front of the default group, or of the chats' one, which is made if need be. |
| BlistLoad.ParseContact | libpurple/blist.c:503-529 | A new contact at the end of its group takes the buddies of its element one behind the other; if there are none it is removed, and leaves no trace in the tree. |
| BlistLoad.ParseBuddy | libpurple/blist.c:459-501 | A buddy with a known account, found as BuddyBelongs says, and a name goes behind the others of the contact; the list stays in order unless the group has two of its key then. |
| BlistLoad.ParseChat | libpurple/blist.c:531-576 | A chat with a known account goes to the end of its group. |
| BlistLoad.StandsTwice | libpurple/blist.c:491-493 | A file in which a buddy stands twice. |
| BlistShape.ValidOnce | libpurple/blist.c:1693-1703 | No group of a list in order has two buddies of one key. |
| BlistXml.ReadDistinct | libpurple/blist.c:578-603 | Loading never makes two groups whose names compare equal. |
| BlistXml.SettingBack | libpurple/blist.c:439-457 | One setting written and read is the same setting, or leaves no trace if it is an empty or null string. |
| Xml.AtoiItoa | libpurple/blist.c:148-160 | A number printed with %d is read back by atoi. |
| Xml.Decimal | libpurple/blist.c:148-160 | Numbers are written in decimal digits, a negative one with a sign in front. |
| Xml.AtoiStops | libpurple/blist.c:439-457 | atoi stops at the first character behind the number that is no digit, and makes 0 of what is no number. |
| Xml.AtoiSkips | libpurple/blist.c:439-457 | It skips white space in front. |
| AccountSettings.RoundTrip | libpurple/account.c:537-679 | Whatever order the tables are walked in, writing and reading gives the core and interface settings back, without null and empty strings, migrated exactly once if there was anything to read. |
| AccountSettings.MigratedOnce | libpurple/account.c:537-604 | Migrating again changes nothing. |
| AccountSettings.YahooValues | libpurple/account.c:537-564 | A Yahoo account that asks to be converted and has both servers is on prpl-yahoojp, its old serverjp under server, its old xferjp_host under xfer_host, the three old settings gone and all others as they were; without both it stays, and without the wish it only loses the three. |
| AccountSettings.IcqValues | libpurple/account.c:566-585 | login.messaging.aol.com and login.oscar.aol.com become login.icq.com, slogin.oscar.aol.com becomes slogin.icq.com, and any other server stays, as do all other settings. |
| AccountSettings.XmppValues | libpurple/account.c:587-604 | Without a connection security it becomes old_ssl if old_ssl is on, else opportunistic_tls if require_tls is off, else require_tls; with one, or on any other protocol, nothing changes. |
| AccountFormat.BlocksWritten | libpurple/account.c:111-140 | The file, by the names of its elements and attributes: first a block with all core settings, if there are any, and then one for each interface that has settings, which names it. |
| AccountFormat.ReadsOnly | libpurple/account.c:606-679 | Exactly the elements are read that are settings with a name, one of the three types, and text; a switch is off if and only if its text begins with 0. |
| AccountSettings.OldSettingsGone | libpurple/account.c:537-564 | The three old settings are gone if and only if the account does not ask to be converted while a server is missing; then everything stays; other settings are kept. |
| AccountSettings.OldSettingsStay | libpurple/account.c:551-560 | An account whose old settings stay. |
| AccountSettings.PlainBecomesSecure | libpurple/account.c:573-583 | An account with a plain server, which gets the new plain or the new encrypted one, depending on what the freed memory reads as. |
| AccountSettings.MigratedReadsNone | libpurple/account.c:573-583 | An account that has been migrated reads no freed memory when it is migrated again. |
| AccountSettings.MigratedUi | libpurple/account.c:537-604 | Migrations neither read nor change an interface's settings. |
| AccountSettings.UiBack | libpurple/account.c:606-679 | The interface blocks, read after the core block, never alter core settings beyond migrating them. |
| AccountSettings.TableBack | libpurple/account.c:111-140 | A table written setting by setting, in any order, comes back as its lasting part. |
| AccountStore.Store.MigrateYahooJapan | libpurple/account.c:537-564 | In steps, the conversion whose values YahooValues gives. |
| AccountStore.Store.MigrateIcqServer | libpurple/account.c:566-585 | The old server names become the new ones, the encrypted one staying encrypted, unless the string that the first assignment frees reads as the encrypted name when it is compared again: then the new server is the encrypted one. It is compared at all if and only if the account is on ICQ and its server is one of the two plain names. |
| AccountStore.Store.MigrateXmppEncryption | libpurple/account.c:587-604 | In steps, the change whose values XmppValues gives. |
| AccountStore.Store.ParseSettings | libpurple/account.c:606-679 | One block goes into the core table or the interface's, setting by setting, and is followed by the migrations; so it is if and only if no freed server is compared that reads as the encrypted one, and otherwise the account has the encrypted server. |
| AccountStore.Store.ParseAccount | libpurple/account.c:1013-1018 | All blocks in order, if no block makes a freed server read as the encrypted one. |
| AccountStore.Store.ToXml | libpurple/account.c:440-449 | The core block comes first, then one block for every interface with settings. |
| AccountStore.CoreFirst | libpurple/account.c:440-449 | Any core block and any interface's block, read in the other order, give the same account if and only if the account is not an XMPP one whose core block has an old switch that asks for something else and no connection security. |
| AccountList.Accounts.Reorder | libpurple/account.c:3082-3111 | The account stands right before the one that was at the index, or at the end; all others stay in order; an unknown account or an index out of range changes nothing. |
| AccountList.Accounts.KeyPressed | finch/gntaccount.c:735-772 | The arithmetic modulo one more than the list's length moves the account one place up or down, around the ends, and the others stay in order; an account that is not in the list moves nothing. |
| AccountList.Accounts.UpAndDown | finch/gntaccount.c:735-775 | Up and then down, or down and then up, changes nothing. |
| AccountList.Accounts.AllTheWayDown | finch/gntaccount.c:735-775 | As many steps down as there are accounts change nothing. |
| AccountRequests.Requests.Answer | libpurple/account.c:1473-1503 | A pending request that is granted or denied calls back once, is off the list and freed. |
| AccountRequests.Requests.Close | libpurple/account.c:1422-1433 | A pending request that is closed tells the interface once, is off the list and freed. |
| AccountRequests.Requests.CloseAll | libpurple/account.c:1435-1471 | Of the pending requests exactly those on the account, or else with the handle, are closed, and nothing else happens to any, while the list is walked by links that are saved before a request may go; the others stay, in order. |
| AccountRequests.WalkedBehind | libpurple/account.c:1442-1451 | In the middle of the walk the next link of a request in the list leads to the one that was behind it in the beginning. |
| AccountRequests.Requests.Ask | libpurple/account.c:1565-1609 | A request that is answered before the interface returns is freed and not listed; otherwise it is pending with one reference. Every request issued is pending or has been answered or closed exactly once. |
| AccountRequests.Requests.Unref | libpurple/account.c:1410-1420 | The last reference frees the request, and no other. |
| AccountRequests.AccountedFor | libpurple/account.c:1410-1503 | Issuing, answering and closing keep the account: every request issued is live or was dealt with once. |
| UserSplits.CutThenJoined | finch/gntaccount.c:134-152 | Cutting a name and joining the pieces gives the name back if and only if every separator is found and no piece is empty unless its default is. |
| UserSplits.JoinedThenCut | finch/gntaccount.c:333-363 | Joining a name and pieces and cutting gives them back if and only if every backward separator is missing from its piece and every forward one from all that is before it. |
| UserSplits.UpdateUserSplits | finch/gntaccount.c:312-363 | The loop that cuts the buffer in place, last split first: each split looks for its separator, from its own end, in what the ones behind it have left; its entry is what stands behind that, or the default if there is none, and the name is what is left in the end. Without an account all entries are defaults. |
| UserSplits.SaveUsername | finch/gntaccount.c:123-152 | The name that is saved is the name, and for each split in order its separator and behind that the entry, or else the default, (null) if that is NULL; an empty name is refused. |
| UserSplits.Find | finch/gntaccount.c:343-346 | strchr or strrchr on what is left of the buffer. |
| Getopt.Scanner.GetoptInternal | finch/getopt.c:319-652 | One call reports exactly what the one-pass parser reports next, of which the GetoptMeaning rows say what it is; the vector is permuted only in PERMUTE mode, and argv[0] never. |
| Getopt.ScanAll | finch/getopt.c:319-652 | Calls until EOF terminate; they report the parser's items in order, and leave the vector as argv[0], everything consumed in order, and the operands in order, with optind at the first operand. In the other modes the vector is unchanged. |
| Getopt.WholeIsParse | finch/getopt.c:319-652 | Without a leading sign in the option string, the whole run is the one-pass parser's answer, and the vector is split by its marks. |
| Getopt.Scanner.Scan | finch/getopt.c:361-650 | A call after its first block takes the state to the parser's next one and reports its item. |
| Getopt.Scanner.Initialize | finch/getopt.c:337-359 | The first call sets the indices and the ordering, which the sign in front or the environment decides, and strips the sign for itself only. |
| Getopt.Scanner.Exchange | finch/getopt.c:241-261 | The two blocks change places, each keeping its order, through a temporary copy. |
| Getopt.BCopy | finch/getopt.c:211-220 | A front-to-back copy that may overlap downward. |
| Getopt.Scanner.Reorder | finch/getopt.c:371-378 | Exchanging keeps what vector and indices stand for. |
| Getopt.Scanner.SkipOperands | finch/getopt.c:363-388 | Skipped operands are set aside in order. |
| Getopt.Scanner.EndOptions | finch/getopt.c:395-407 | -- is consumed and everything behind it is an operand. |
| Getopt.Scanner.Advance | finch/getopt.c:355-438 | Between elements: EOF, an operand handed over, or the start of the next option element. |
| Getopt.LookupLong | finch/getopt.c:461-484 | An exact name wins, otherwise the only abbreviation; two abbreviations are ambiguous. |
| GetoptSpec.MatchIsUnique | finch/getopt.c:461-484 | That rule determines the answer. |
| Getopt.Scanner.LongOption | finch/getopt.c:447-569 | In steps, the long option that the rows from LongAttached to LongUnknown describe, and the fall-through to a short one. |
| Getopt.Scanner.ShortOption | finch/getopt.c:571-650 | In steps, the short option that the rows from ShortLast to ShortWithout describe. |
| Getopt.NextEnds | finch/getopt.c:355-650 | Every call that reports something leaves fewer unscanned elements, or as many and less text. |
| GetoptMeaning.LongAttached | finch/getopt.c:459-542 | --name=text, for a name that is that of an option, or abbreviates one option's only: an option that may have an argument is reported with everything behind the first = as its argument, its index, and its code, or 0 with its flag set; then what follows is parsed. |
| GetoptMeaning.LongTakesNext | finch/getopt.c:521-542 | --name for an option that requires an argument: it is the next element, whatever that looks like, and both are used up. |
| GetoptMeaning.LongBare | finch/getopt.c:521-542 | --name for an option that does not: it is reported without one, and takes nothing from the next element. |
| GetoptMeaning.LongMistaken | finch/getopt.c:502-532 | An argument for an option that has none is reported as ?, and a missing one as ?, or as : if the option string begins so. |
| GetoptMeaning.LongUnknown | finch/getopt.c:482-568 | A name that is ambiguous or of no option is reported as ?, unless the element has one dash, no option begins so and it begins with a letter of the option string. |
| GetoptMeaning.ShortLast | finch/getopt.c:571-599 | A cluster of letters: each option without an argument is reported by itself, in order, and each letter that is no option as ? with that letter. |
| GetoptMeaning.ShortAttached | finch/getopt.c:599-622 | Everything behind the letter of an option with a required or optional argument is its argument, of whatever length. |
| GetoptMeaning.ShortTakesNext | finch/getopt.c:616-646 | With nothing behind its letter a required argument is the next element, whatever that looks like, and both are used up. |
| GetoptMeaning.ShortWithout | finch/getopt.c:601-647 | An optional argument is never the next element; a required one that is missing is reported as ?, or as : if the option string begins so, with the letter. |
| GetoptMeaning.OperandMeans | finch/getopt.c:363-438 | An element that is no option ends the options, is set aside, or is reported with code 1, depending on the ordering. |
| GetoptMeaning.NothingBehind | finch/getopt.c:390-407 | Nothing is reported at the end of the vector, nor behind --, which is used up and no more. |
| GetoptMeaning.OrderingMeans | finch/getopt.c:337-359 | Which of the three becomes of an operand in front of a whole run, by the sign of the option string or the environment. |
| GetoptProofs.SelectUniform | finch/getopt.c:241-261 | Of elements that are all marked alike, all or none are selected, in order. |
| GetoptProofs.SelectAppend | finch/getopt.c:241-261 | Selecting from one row of elements behind another gives what each gives, one behind the other. |
| GetoptProofs.StepTotal | finch/getopt.c:319-652 | What a call reports is the head of what was still to be reported. |
| GetoptProofs.EofTotal | finch/getopt.c:390-415 | At EOF nothing is left to report and the rest are operands. |
| GetoptProofs.DoubleDashEndsOptions | finch/getopt.c:387-415 | In every ordering, behind any beginning whose last option does not take -- as its argument, everything after -- is an operand. |
| GetoptProofs.ParseBoth | finch/getopt.c:355-650 | A beginning that ends with its last option is parsed by itself, and then the rest as if it were all. |
| GetoptProofs.OperandsDoNotMatter | finch/getopt.c:373-388 | In PERMUTE mode an operand, anywhere between two elements, changes nothing that is reported. |
| GetoptProofs.ClusterSplits | finch/getopt.c:571-590 | A flag in a cluster is the same as the flag on its own. |
| GetoptSign.SignedRun | finch/getopt.c:345-354 | A run with a sign in front of the option string is the one-pass parser's without it if and only if every option behind the one the first call reports is decoded alike with the sign. |
| GetoptSign.DecodedAlike | finch/getopt.c:461-650 | For a sign that is no option: alike if and only if the sign is not looked up as an option character, and no required argument is missing while : stands in front. |
| GetoptSign.SignedRunSmooth | finch/getopt.c:345-354 | The two together: the run is the parser's if and only if no such option comes up behind the first report. |
| GetoptSign.SignedRunLacking | finch/getopt.c:345-354 | So it is whenever : is not in front and no option element contains the sign. |
| GetoptSign.SignIsOption | finch/getopt.c:345-354 | With +a a later -+ is reported as an option. |
| GetoptSign.ColonIsLost | finch/getopt.c:637-640 | With -:ab: a later missing argument gets the wrong code. |
| GetoptSign.SignTakesArgument | finch/getopt.c:599-642 | With -:a the sign takes arguments later on. |
| CircBuffer.Run | libpurple/circbuffer.c:30-149 | From a new buffer, any appends and reads, up to the first growing append from the stale state: what was delivered, followed by what is buffered, is exactly what was appended. |
| CircBuffer.AppendKeepsCongruenceExactly | libpurple/circbuffer.c:44-121 | in = out + used modulo the length survives an append if and only if it is not a growing append from the stale state. |
| CircBuffer.StaleGrowthExample | libpurple/circbuffer.c:55-72 | Filling to the last byte, draining and growing breaks it. |
| CircBuffer.NewLengthIsLeast | libpurple/circbuffer.c:52-53 | Growth adds the fewest steps of growsize that make room. |
| CircBuffer.CircBuffer.Append | libpurple/circbuffer.c:91-121 | The queue is the old one followed by the new bytes, unless the append grows a stale buffer. |
| CircBuffer.CircBuffer.Grow | libpurple/circbuffer.c:44-89 | Growing keeps the unread bytes in order in every layout but the stale one. |
| CircBuffer.CircBuffer.MakeRoom | libpurple/circbuffer.c:97-99 | Growing happens exactly when needed and leaves room, the queue as it was unless the buffer was stale. |
| CircBuffer.CircBuffer.GetMaxRead | libpurple/circbuffer.c:123-136 | That many bytes at outptr are the front of the queue. |
| CircBuffer.CircBuffer.MarkRead | libpurple/circbuffer.c:138-149 | Accepted exactly up to the maximum; then the queue has lost its front. |
| CircBuffer.TwoReadsDrain | libpurple/circbuffer.c:123-149 | A non-empty buffer offers at least one and at most all bytes, and two maximal reads empty it. |
| CircBuffer.Drain | libpurple/circbuffer.c:123-149 | Two maximal reads deliver the whole queue. |
| CircBuffer.MovedKeepsUnread | libpurple/circbuffer.c:69-88 | The copy and the move that follow a growth keep the queue. |
| CircBuffer.StoredAppends | libpurple/circbuffer.c:105-120 | The one or two copies of an append put the bytes behind the queue. |

## Left out

- Signals, D-Bus registration, user interface operations, conversation titles, logging and save timers: no-ops that do
  not re-enter; where the code asks whether the interface has an update operation (`libpurple/blist.c:2676`) it is taken
  to have one.
- Protocol plugins and the network: `serv_move_buddy`, `purple_account_remove_buddy`, the rename_group hooks, and
  connecting. Connecting and disconnecting are the flag together with the sweep over the list, as one step.
- Memory allocation: every operation that makes nodes takes ids that are not in use. The preference for the last match,
  name normalization, collation keys, comparison ignoring case, comparison and online test of presences, the
  `show_offline` setting (given as the set of contacts that have it) and the localized default names are parameters.
  Presences are taken to be totally preordered by their comparison, and every buddy to have a presence of its own.
- `purple_utf8_strip_unprintables`: names and aliases are taken to be stripped already; character encoding and locale.
- Blist.BuddyList.AddContact, Blist.BuddyList.AddBuddy, Blist.BuddyList.AddChat: `group` is a group whose name is free or
  its own (for a contact, a listed group); adding into an unlisted group whose name another group has is not modelled.
- Blist.BuddyList.RenameGroup: what happens after the code has read a freed contact; the model stops there.
- Blist.BuddyList.AddGroup: a node to go behind that is another group outside the list; the group would hang on that one,
  out of reach of the root.
- Blist.BuddyList.NewBuddy, Blist.BuddyList.RenameBuddy: names are not empty. `purple_find_buddy_in_group` finds nobody under
  an empty name (`libpurple/blist.c:2465`), so that moving a contact with such a buddy would overwrite entries, too.
- Blist.BuddyList.UpdateBuddyStatus: for buddies in the list on connected accounts, as presences of others do not change.
- `last_seen`, buddy icons, aliases and settings of nodes in the live list; they matter to the saved list only.
- BlistXml.Roster.Load: has the aliases, settings and components, which `BuddyList` leaves out, in values of its own; what
  becomes of the tree and the tables is said at BlistLoad.Load.
- BlistLoad.Load: once a buddy has been read whose key another one of its group has, the list is out of order, and what is
  still to be read is not modelled. No element has empty character data, as none has that an XML parser has made.
- XML as text: elements are values; the one effect of the text that is modelled is that empty character data vanishes.
  The order in which a hash table is walked is part of what is written. Privacy lists and status attributes.
- `atoi` and `%d` on numbers that do not fit an `int`.
- AccountStore.Store.ParseAccount: what further blocks do once a freed server has read as the encrypted one.
- AccountRequests.Requests.Ask: the interface answers a request once at most; requests that notify only, and the core's
  question to the plugin, are not modelled.
- UserSplits.SaveUsername: a dialog has one entry per split, as it does when built, and a default that is NULL is
  appended as "(null)", as printf of the GNU C library does; the rest of the dialogs.
- Getopt.Scanner.GetoptInternal: calls after EOF, the messages on stderr, and the variants for GETOPT_COMPAT and the GNU
  library (`memcpy` for the copy loop) are not modelled.
- CircBuffer.CircBuffer.Append: pointers are offsets, NULL being offset 0 of an empty allocation, and sizes do not
  overflow; appends go on after the broken state only as far as Append's contract says.
- All windows, menus and media of `finch/`, `accountopt.c`, `buddyicon.h`, the reconnect delay of `gntconn.c`, alias
  precedence, getters and setters: easy members only.
