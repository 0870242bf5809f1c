/** The task list page: a category pill plus a case-insensitive title search
    filter the task list, and one task at a time can be opened in the
    detail modal before it is started. */
module Tasks {
  import opened Wrappers
  import opened JsText
  import Lists

  /** The fields of a task the page's logic looks at (description, reward and time estimate are display only). */
  datatype Task = Task(id: int, title: string, category: string)

  const AllCategories := "All"
  const Categories: seq<string> := [AllCategories, "Social", "Survey", "AI Task"]

  /** The category pill: `All` lets every task through, any other pill only its own category. */
  function MatchesCategory(task: Task, activeCategory: string): (matches: bool)
    ensures activeCategory == AllCategories ==> matches
    ensures activeCategory != AllCategories ==> (matches <==> task.category == activeCategory)
  {
    activeCategory == AllCategories || task.category == activeCategory
  }

  /** The search box, ignoring case: the empty query matches every task, and a
      matching query is no longer than the title. */
  function MatchesSearch(task: Task, searchQuery: string): (matches: bool)
    ensures searchQuery == "" ==> matches
    ensures matches ==> |searchQuery| <= |task.title|
  {
    Includes(ToLower(task.title), ToLower(searchQuery))
  }

  /** A task is listed when it passes both the pill and the search box. */
  function IsShown(task: Task, activeCategory: string, searchQuery: string): (shown: bool)
    ensures shown ==> (activeCategory == AllCategories || task.category == activeCategory)
    ensures shown ==> |searchQuery| <= |task.title|
    ensures activeCategory == AllCategories && searchQuery == "" ==> shown
  {
    MatchesCategory(task, activeCategory) && MatchesSearch(task, searchQuery)
  }

  /** `filteredTasks`: a task is kept exactly when it passes both tests. */
  function FilteredTasks(tasks: seq<Task>, activeCategory: string, searchQuery: string): (shown: seq<Task>)
    ensures forall t :: t in shown <==> t in tasks && IsShown(t, activeCategory, searchQuery)
    ensures forall t :: multiset(shown)[t] == if IsShown(t, activeCategory, searchQuery) then multiset(tasks)[t] else 0
  {
    Lists.Filter((t: Task) => IsShown(t, activeCategory, searchQuery), tasks)
  }

  /** The shown tasks appear in the order of the task list. */
  lemma FilteredTasksKeepOrder(tasks: seq<Task>, activeCategory: string, searchQuery: string)
    ensures Lists.IsSubsequence(FilteredTasks(tasks, activeCategory, searchQuery), tasks)
  {
    Lists.FilterIsSubsequence((t: Task) => IsShown(t, activeCategory, searchQuery), tasks);
  }

  /** With category `All` and an empty search box, every task is shown. */
  lemma UnfilteredShowsAll(tasks: seq<Task>)
    ensures FilteredTasks(tasks, AllCategories, "") == tasks
  {
    Lists.FilterKeepsAll((t: Task) => IsShown(t, AllCategories, ""), tasks);
  }

  /** Two queries that differ only in letter case show the same tasks. */
  lemma SearchIgnoresCase(tasks: seq<Task>, activeCategory: string, query: string, query': string)
    requires ToLower(query) == ToLower(query')
    ensures FilteredTasks(tasks, activeCategory, query) == FilteredTasks(tasks, activeCategory, query')
  {
    Lists.FilterAgrees((t: Task) => IsShown(t, activeCategory, query),
                       (t: Task) => IsShown(t, activeCategory, query'), tasks);
  }

  /** In particular, typing the query in capitals changes nothing. */
  lemma CapitalisedSearchSameResult(tasks: seq<Task>, activeCategory: string, query: string)
    ensures FilteredTasks(tasks, activeCategory, ToUpper(query)) == FilteredTasks(tasks, activeCategory, query)
  {
    LowerOfUpper(query);
    SearchIgnoresCase(tasks, activeCategory, ToUpper(query), query);
  }

  class TasksPage {
    /** The mock task list, fixed for the page's lifetime. */
    const tasks: seq<Task>
    var activeCategory: string
    var searchQuery: string
    /** The task open in the detail modal, if any. */
    var selectedTask: Option<Task>

    constructor (tasks: seq<Task>)
      ensures this.tasks == tasks
      ensures activeCategory == AllCategories && searchQuery == "" && selectedTask == None
    {
      this.tasks := tasks;
      activeCategory := AllCategories;
      searchQuery := "";
      selectedTask := None;
    }

    /** The list on screen; it depends on the filters only, never on `selectedTask`. */
    function Shown(): seq<Task>
      reads this`activeCategory, this`searchQuery
    {
      FilteredTasks(tasks, activeCategory, searchQuery)
    }

    /** A category pill. */
    method SelectCategory(category: string)
      requires category in Categories
      modifies this`activeCategory
      ensures activeCategory == category
      ensures Shown() == FilteredTasks(tasks, category, searchQuery)
    {
      activeCategory := category;
    }

    /** Typing in the search box. */
    method SetSearchQuery(query: string)
      modifies this`searchQuery
      ensures searchQuery == query
      ensures Shown() == FilteredTasks(tasks, activeCategory, query)
    {
      searchQuery := query;
    }

    /** `handleStartTask`, reachable from a card of the shown list. */
    method StartTask(task: Task)
      requires task in Shown()
      modifies this`selectedTask
      ensures selectedTask == Some(task) && Shown() == old(Shown())
    {
      selectedTask := Some(task);
    }

    /** `confirmStart`: announce the task, then close the modal. */
    method ConfirmStart() returns (notice: Toast)
      requires selectedTask.Some?
      modifies this`selectedTask
      ensures notice == InfoToast("Starting task: " + old(selectedTask).value.title)
      ensures selectedTask == None && Shown() == old(Shown())
    {
      notice := InfoToast("Starting task: " + selectedTask.value.title);
      selectedTask := None;
    }

    /** The Cancel button, the close button and the backdrop all do the same. */
    method DismissTask()
      modifies this`selectedTask
      ensures selectedTask == None && Shown() == old(Shown())
    {
      selectedTask := None;
    }
  }
}
