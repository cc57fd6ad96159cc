/** The dashboard: task counts and the short previews of the two lists. The status badge
    colours are the Google Sheets page's `GoogleSheets.StatusColor`, which the dashboard
    repeats verbatim. */
module Dashboard {
  import opened Js
  import opened Lists
  import opened TasksPage

  /** `tasks.filter(task => task.completed).length` */
  function CompletedCount(tasks: seq<Record>): (n: nat)
    ensures n <= |tasks|
    ensures n == 0 <==> forall i :: 0 <= i < |tasks| ==> !IsCompleted(tasks[i])
  {
    var r := CompletedTasks(tasks);
    assert r != [] ==> r[0] in tasks;
    |r|
  }

  /** `tasks.filter(task => !task.completed).length` */
  function PendingCount(tasks: seq<Record>): (n: nat)
    ensures n <= |tasks|
    ensures n == 0 <==> forall i :: 0 <= i < |tasks| ==> IsCompleted(tasks[i])
  {
    var r := PendingTasks(tasks);
    assert r != [] ==> r[0] in tasks;
    |r|
  }

  /** The two counts add up to the number of tasks. */
  lemma CountsAddUp(tasks: seq<Record>)
    ensures CompletedCount(tasks) + PendingCount(tasks) == |tasks|
  {
    TasksPartition(tasks);
  }

  /** `sheets.slice(0, 4)`: the first four sheets, or all of them when there are fewer. */
  function RecentSheets(sheets: seq<Record>): (r: seq<Record>)
    ensures |r| == if |sheets| < 4 then |sheets| else 4
    ensures r == sheets[..|r|]
  {
    Take(sheets, 4)
  }

  /** `tasks.slice(0, 5)`: the first five tasks, or all of them when there are fewer. */
  function TaskPreview(tasks: seq<Record>): (r: seq<Record>)
    ensures |r| == if |tasks| < 5 then |tasks| else 5
    ensures r == tasks[..|r|]
  {
    Take(tasks, 5)
  }

  /** A short list is previewed whole, and the sheet preview is a prefix of the five-long
      preview of the same list. */
  lemma PreviewsOfShortLists(list: seq<Record>)
    ensures |list| <= 4 ==> RecentSheets(list) == list
    ensures |list| <= 5 ==> TaskPreview(list) == list
    ensures RecentSheets(list) == TaskPreview(list)[..|RecentSheets(list)|]
  {
  }
}
