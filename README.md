# City-Reporter state logic in Dafny

City-Reporter is a React front end. This project models the three pages that
hold state logic of their own, and proves what each operation does to that state.

- **Post feed** (`src/pages/Post.jsx`), in module `Feed`:
  - the `Post`, `Category` and `Comment` records;
  - `PostController` and `CategoryController`, each over its own list;
  - `ModalManager`: a set of open modal ids. It writes the document's `overflow`
    style (`PageStyle`), which every manager shares and which outlives the page;
  - the page component `InstagramApp`: the mount effect, the create, like and
    category-filter handlers, and opening and closing the form;
  - the guard and defaults of `PostCreationModal.handleSubmit`.
- **Admin report table** (`src/pages/Admin.jsx`), in module `Admin`:
  - the status and priority badge classes;
  - the search-and-status filter;
  - the dashboard's first five rows;
  - the status-change and delete handlers, which keep the selected report in step.
- **Chat bot history** (`src/pages/ChatBot.jsx`), in module `ChatBot`:
  - saving, starting, loading and deleting chats;
  - the title a saved chat gets;
  - the sidebar search;
  - the steps of `generateAnswer` that run before the request is sent.

Two helper modules hold the JavaScript built-ins the pages rely on. `JsArray`
models `find`, `findIndex`, `filter` and `slice(0, n)` on sequences. `JsString`
models `toLowerCase`, `includes`, `trim`, number-to-string conversion and `parseInt`.

How the modelled state is represented:

- Objects whose fields the code updates in place are classes:
  - `PostController`, `CategoryController` and `ModalManager`, and the document
    style `PageStyle` that the managers write;
  - the state of each page component (`InstagramApp`, `PostCreationModal`,
    `CityReporterAdminPanel`, `ChatbotWithSidebar`).
- Records are datatypes. A post's `categoryId` is `Null`, `Num(n)` or `NaN`,
  because the form stores `parseInt` of the selected option. NaN is `===` to nothing.
- `find`/`findIndex` return an `Option`. `None` stands for `undefined`, or for -1.
- `getFeed` sorts in place with a stable descending sort (ECMAScript's
  `Array.prototype.sort` is stable). `FeedOrder` is that order, written as an
  insertion sort. It is proved to be:
  - newest first;
  - a permutation of the stored posts;
  - stable per timestamp;
  - the only order with these three properties.
- An `updates` object is a patch with one optional field per key. `{...p, ...u}` keeps
  every field the patch does not supply.
- Clock readings are integer milliseconds passed in as parameters. This covers
  `Date.now()` used as an id and `new Date()` used as a timestamp.

Five behaviours of the code are easy to misread. The model follows the code:

- `updatePost` and `updateCategory` merge whatever keys they are given, `id` and
  `timestamp` included.
- Ids are not guaranteed unique. Lookups take the first match, and deletes remove
  every record with the id.
- No operation appends comments. Comments appear only in the seed posts.
- `handleCategoryFilter(null)` while a category is selected does not show the
  whole feed. It shows the posts whose category is `null`, and a post created
  through the form never has one (`AllAfterCategoryShowsOnlyUncategorised`,
  `Submission`). Choosing "All" a second time does show the feed.
- The `overflow` style belongs to the document, not to a manager. Each visit to the
  page builds a new manager, which leaves the style as the last visit left it. Leaving
  with the dialog open means a fresh manager with no open modal over a hidden scroll
  bar. The style is back in step after the manager's first operation (`Feed.RunSyncs`).

## Model

| member | source | states |
|---|---|---|
| Feed.NewPost | src/pages/Post.jsx:6-15 | a new post starts with no likes and no comments |
| Feed.PostController.constructor | src/pages/Post.jsx:39-47 | the controller starts with the two seed posts |
| Feed.PostController.CreatePost | src/pages/Post.jsx:49-58 | the new post has the given data, the clock's id and timestamp, 0 likes and no comments; it is at index 0 and every older post moves back one place in the same order |
| Feed.PostController.GetPostById | src/pages/Post.jsx:60-62 | returns the first stored post with the id (every post before it has another id), or nothing exactly when no stored post has it |
| Feed.PostController.UpdatePost | src/pages/Post.jsx:64-71 | when the id is found, the first match becomes the merge at the same index and is returned, with the length and all other positions unchanged; when it is not found, the result is null and nothing changes |
| Feed.MergePostLaws | src/pages/Post.jsx:67 | an empty update keeps the post; repeating an update changes nothing more; two updates in a row equal one merged update |
| Feed.PostController.DeletePost | src/pages/Post.jsx:73-75 | the stored posts become exactly those whose id differs |
| Feed.DeletePostSpec | src/pages/Post.jsx:73-75 | every post with the id goes, every other post stays with all its copies in the same relative order, and a second delete changes nothing |
| Feed.PostController.GetFeed | src/pages/Post.jsx:77-79 | the stored posts are re-ordered in place and returned: newest first, a permutation, ties in stored order |
| Feed.FeedOrder | src/pages/Post.jsx:78 | the sorted posts have the same length and are a permutation of the stored posts |
| Feed.FeedOrderSpec | src/pages/Post.jsx:77-79 | the feed order has non-increasing timestamps, is a permutation of the stored posts, and keeps posts with equal timestamps in stored order |
| Feed.FeedOrderIsTheStableSort | src/pages/Post.jsx:77-79 | any newest-first permutation that keeps ties in stored order is the feed order, so the model is the stable sort |
| Feed.PostController.GetPostsByCategory | src/pages/Post.jsx:81-83 | returns stored posts whose category is `===` the argument, and every such post |
| Feed.PostsByCategorySpec | src/pages/Post.jsx:81-83 | the posts in the category, each with all its copies, in stored order; none for NaN; the argument is not checked against the categories |
| Feed.PostController.LikePost | src/pages/Post.jsx:85-91 | when the id is found, the first match gets exactly one more like and nothing else changes; when it is not found, the result is undefined and nothing changes |
| Feed.LikeAddsOne | src/pages/Post.jsx:85-91 | one like raises the total like count of the stored posts by exactly one |
| Feed.LikeThenDelete | src/pages/Post.jsx:73-91 | liking a post and then deleting its id leaves the same posts as deleting alone |
| Feed.CategoryController.constructor | src/pages/Post.jsx:95-102 | the controller starts with the four seed categories |
| Feed.CategoryController.CreateCategory | src/pages/Post.jsx:104-113 | the new category is appended at the end, after the old ones in the same order |
| Feed.CategoryController.GetAllCategories | src/pages/Post.jsx:115-117 | returns the stored list itself, in creation order |
| Feed.CategoryController.GetCategoryById | src/pages/Post.jsx:119-121 | returns the first stored category with the id (every category before it has another id), or nothing exactly when no stored category has it |
| Feed.CategoryController.UpdateCategory | src/pages/Post.jsx:123-130 | when the id is found, the first match becomes the merge at the same index and is returned; otherwise the result is null and nothing changes |
| Feed.CategoryController.DeleteCategory | src/pages/Post.jsx:132-134 | the stored categories become exactly those whose id differs |
| Feed.DeleteCategorySpec | src/pages/Post.jsx:132-134 | every category with the id goes, the others keep all their copies and their order, and a second delete changes nothing |
| Feed.ModalManager.constructor | src/pages/Post.jsx:139-141 | no modal is open; the document's overflow style is left as an earlier visit left it, and the manager's invariant (an open modal means scrolling is hidden) holds from the start |
| Feed.ModalManager.OpenModal | src/pages/Post.jsx:143-146 | the id is open afterwards, overflow is hidden, and the style is in step with the open set |
| Feed.ModalManager.CloseModal | src/pages/Post.jsx:148-153 | the id is closed afterwards; overflow becomes auto when no modal is left open and is kept otherwise; afterwards the style is in step with the open set |
| Feed.ModalManager.IsModalOpen | src/pages/Post.jsx:155-157 | true exactly when the id is among the open modals |
| Feed.ModalManager.CloseAllModals | src/pages/Post.jsx:159-162 | no modal is open and overflow is auto, which is in step |
| Feed.RunKeepsInSync | src/pages/Post.jsx:138-163 | once overflow is hidden exactly when some modal is open, every sequence of open, close and close-all operations keeps it so |
| Feed.OpSyncs | src/pages/Post.jsx:143-162 | from any state where an open modal means hidden, one operation puts the style in step with the open set |
| Feed.RunSyncs | src/pages/Post.jsx:138-163 | a new manager over an inherited style (for example `'hidden'` with no modal open) is in step after its first operation and stays so |
| Feed.ModalLaws | src/pages/Post.jsx:143-162 | opening an id twice equals opening it once; closing all leaves nothing open; an opened id is open and a closed id is not |
| Feed.InstagramApp.constructor | src/pages/Post.jsx:432-439 | the page starts with no posts or categories on screen, no category selected and the form closed, over fresh controllers and a fresh modal manager with no modal open, which writes the given document style and does not reset it |
| Feed.InstagramApp.Mount | src/pages/Post.jsx:441-445 | the stored posts are sorted into feed order and shown, and the categories are loaded |
| Feed.InstagramApp.HandleCreatePost | src/pages/Post.jsx:447-450 | the stored posts become the feed order of the new post followed by the old posts, and that feed is shown |
| Feed.InstagramApp.HandleLikePost | src/pages/Post.jsx:452-455 | the stored posts become the feed order of the posts after the like, and that feed is shown |
| Feed.InstagramApp.HandleCategoryFilter | src/pages/Post.jsx:457-465 | choosing the selected category again clears the selection and shows the re-sorted feed; choosing another selects it and shows its posts without touching the stored order |
| Feed.AllAfterCategoryShowsOnlyUncategorised | src/pages/Post.jsx:457-465 | when no post has a null category, filtering by null shows nothing |
| Feed.InstagramApp.OpenCreateModal | src/pages/Post.jsx:467-470 | the form is open and registered as an open modal, and the style is in step; the posts, categories and selected category on screen are unchanged |
| Feed.InstagramApp.CloseCreateModal | src/pages/Post.jsx:472-475 | the form is closed and unregistered, and the style is in step; the posts, categories and selected category on screen are unchanged |
| Feed.CategoryOf | src/pages/Post.jsx:533 | a post card's category is the first category whose id is `===` the post's category id, or nothing exactly when none matches |
| Feed.DanglingCategory | src/pages/Post.jsx:529-536 | after its category is deleted, a post's card shows no category, and the post stays in the feed |
| Feed.Submission | src/pages/Post.jsx:212-220 | nothing is submitted exactly when the caption or the category is empty; the caption is kept; the image URL is never empty and a given one is kept; the category is never null |
| Feed.SubmissionKeepsCategory | src/pages/Post.jsx:216-220 | picking a category's option files the post under exactly that category's id |
| Feed.PostCreationModal.constructor | src/pages/Post.jsx:207-210 | the form starts with an empty caption, image URL and category, not submitting |
| Feed.PostCreationModal.HandleSubmit | src/pages/Post.jsx:212-228 | an incomplete form changes nothing; a complete one adds the post, shows the new feed, clears the form and closes it, leaving the page's categories and selected category as they were |
| Feed.PostCreationModal.Submit | src/pages/Post.jsx:215-227 | the post is created and the feed re-sorted; the form fields are cleared, submitting ends and the dialog is closed; the page's categories and selected category are unchanged |
| Feed.PostCreationModal.Finish | src/pages/Post.jsx:221-227 | submitting ends, the form fields are cleared and the dialog is closed; the page's posts, categories and selected category are unchanged |
| Admin.StatusColor | src/pages/Admin.jsx:84-91 | the result is the gray default exactly when the status is not one of the three known ones |
| Admin.PriorityColor | src/pages/Admin.jsx:93-100 | the result is the gray default exactly when the priority is not one of the three known ones |
| Admin.ColorsTellKnownValuesApart | src/pages/Admin.jsx:84-100 | two different known statuses get different classes, and so do two different known priorities |
| Admin.FilteredReports | src/pages/Admin.jsx:109-117 | a report is listed exactly when its lower-cased title, location or reporter contains the lower-cased search term and the filter is `'All'` or equals its status |
| Admin.FilteredReportsInOrder | src/pages/Admin.jsx:109-117 | the listed reports keep their stored order |
| Admin.EmptySearchShowsAll | src/pages/Admin.jsx:110-114 | with an empty search and `'All'`, every report is listed |
| Admin.SearchIgnoresCase | src/pages/Admin.jsx:110-112 | lower-casing the search term first gives the same list |
| Admin.TitleHitIsListed | src/pages/Admin.jsx:110 | a report whose title contains the term at some position, ignoring case, is listed under `'All'` |
| Admin.RecentReports | src/pages/Admin.jsx:301 | a prefix of the stored reports: exactly the first five when there are at least five, all of them otherwise |
| Admin.CityReporterAdminPanel.constructor | src/pages/Admin.jsx:103-107 | the panel starts on the dashboard with the sample reports, an empty search, filter `'All'` and nothing selected |
| Admin.CityReporterAdminPanel.HandleStatusChange | src/pages/Admin.jsx:119-126 | reports with the id take the new status and keep every other field; other reports, order and length stay; a selected report with the id takes the status too |
| Admin.StatusChangeShowsUnderNewStatus | src/pages/Admin.jsx:114-122 | after the change, a changed report that matches the search is listed under its new status |
| Admin.CityReporterAdminPanel.HandleDeleteReport | src/pages/Admin.jsx:128-133 | every report with the id goes, the rest keep their order; the selection is cleared exactly when it had the id |
| Admin.StatusChangeThenDelete | src/pages/Admin.jsx:119-133 | changing a status and then deleting that id leaves what deleting alone leaves |
| ChatBot.ChatbotWithSidebar.constructor | src/pages/ChatBot.jsx:4-11 | no messages, empty input, not loading, empty history, no active chat, empty search |
| ChatBot.ChatbotWithSidebar.GenerateAnswer | src/pages/ChatBot.jsx:16-29 | a question whose `trim()` is empty (by `JsString.TrimEmptyIffBlank`, one that is empty or only whitespace) changes nothing and sends nothing; otherwise one user message with the question is appended, the input is cleared, loading starts and the question is the text sent |
| ChatBot.ChatTitle | src/pages/ChatBot.jsx:85 | the title is never empty: the first user message's first 50 characters, or the fallback when there is no user message or its content is empty |
| ChatBot.FallbackTitle | src/pages/ChatBot.jsx:85 | the fallback starts with `Chat ` and has more after it |
| ChatBot.FallbackTitleCarriesTime | src/pages/ChatBot.jsx:85 | the number after `Chat ` reads back as the save time |
| ChatBot.TitleFromOpeningQuestion | src/pages/ChatBot.jsx:85 | an opening user question names the chat: the title is its prefix, and is all of it when it has at most 50 characters |
| ChatBot.ChatbotWithSidebar.SaveChat | src/pages/ChatBot.jsx:83-96 | with no messages nothing changes; otherwise one chat holding the messages is put in front of the history and becomes active |
| ChatBot.ChatbotWithSidebar.StartNewChat | src/pages/ChatBot.jsx:99-105 | messages end empty and no chat is active; the history grows by one exactly when there were messages |
| ChatBot.ChatbotWithSidebar.LoadChat | src/pages/ChatBot.jsx:108-111 | the chat's messages are shown and it becomes the active chat, and nothing else changes |
| ChatBot.ChatbotWithSidebar.DeleteChat | src/pages/ChatBot.jsx:114-120 | chats with the id leave the history; messages and the active chat are cleared exactly when that chat was active |
| ChatBot.DeleteChatSpec | src/pages/ChatBot.jsx:115 | every chat with the id goes, the others keep all their copies and their order, and a second delete changes nothing |
| ChatBot.VisibleChats | src/pages/ChatBot.jsx:170-171 | the sidebar lists history chats whose lower-cased title contains the lower-cased search, and every such chat |
| ChatBot.VisibleChatsSpec | src/pages/ChatBot.jsx:170-171 | the sidebar keeps history order and lists every chat when the search is empty |
| JsString.ToLower | src/pages/Admin.jsx:110-112 | same length, no upper-case ASCII letter left, each upper-case letter replaced by its lower-case one and every other character kept |
| JsString.Includes | src/pages/Admin.jsx:110-112 | a term that starts the string is included, and an included term is no longer than the string |
| JsString.IncludesIffOccurs | src/pages/Admin.jsx:110-112 | `includes` holds exactly when the term occurs at some position |
| JsString.ToLowerIdempotent | src/pages/Admin.jsx:110-112 | lower-casing twice is lower-casing once |
| JsString.Trim | src/pages/ChatBot.jsx:17 | the result is a slice of the input that neither starts nor ends with whitespace |
| JsString.TrimEmptyIffBlank | src/pages/ChatBot.jsx:17 | `trim()` is empty exactly when every character is whitespace |
| JsString.ParseInt | src/pages/Post.jsx:219 | NaN when, after leading whitespace, there is nothing or the first character is neither a digit nor a sign; a negative result comes only from a leading `-` |
| JsString.ParseIntOfIntToString | src/pages/Post.jsx:219 | `parseInt` of a printed integer gives that integer back |
| JsArray.Find | src/pages/Post.jsx:61 | the first element satisfying the test (every element before it fails), or undefined exactly when no element passes |
| JsArray.FindIndex | src/pages/Post.jsx:65 | the index of the first element satisfying the test, or none exactly when no element does |
| JsArray.Filter | src/pages/Post.jsx:74 | the kept elements all pass the test and come from the input; every passing element is kept with exactly as many copies as the input has, and no element occurs more often than in the input |
| JsArray.FilterIsSubsequence | src/pages/Post.jsx:74 | `filter` keeps the elements in their original order |
| JsArray.Take | src/pages/Admin.jsx:301 | `slice(0, n)` is a prefix of length `n`, or the whole sequence when it is shorter |

## Left out

- Rendering, styling, routing, the landing and login pages, and the auth store:
  they contain no state logic of these pages.
- The Gemini request and what `generateAnswer` does with its answer or error,
  the clipboard, auto-scroll and the dark-mode and sidebar toggles. They are
  network or browser effects.
- Clocks: `Date.now()` and `new Date()` are parameters (`id`, `now`), and
  locale time strings are opaque `time` strings. The `timestamp` and
  `lastMessage` strings of a saved chat are not modelled.
- `Feed.SeedPosts`: the two seed posts and their comments read the clock
  separately in the source; the model gives them all the same instant `now`.
- React runtime behaviour is not modelled:
  - state batching and asynchronous `setState`;
  - the Escape-key listener of `Modal`;
  - the `await` and `isSubmitting` timing of the form;
  - the array that `getFeed` returns is the controller's own array, which React then
    holds as state. The model copies values, so later in-place changes to that array
    are not seen through React's copy (aliasing).
- `Feed.PostController.LikePost`: the post object is shared with React state in the
  source; the model updates the stored sequence only.
- `Feed.MergePost`, `Feed.MergeCategory`: an update key whose value is `undefined`,
  and keys that are not fields of a post or category, are not modelled.
- `JsString.ToLower`: only the ASCII letters are lower-cased, not the full Unicode
  case mapping.
- `JsString.ParseInt`: only the no-radix form the form uses; digits are read as an
  exact integer, without the rounding of numbers beyond 2^53.
- JsString.IntToString: JavaScript numbers are doubles. From 10^21 up, `${n}` prints
  exponent form (which `parseInt` reads back as its first digit), and integers beyond
  2^53 are inexact. So `JsString.ParseIntOfIntToString`, `Feed.SubmissionKeepsCategory`
  and `ChatBot.FallbackTitleCarriesTime` hold in JavaScript only for magnitudes below
  2^53. Seed ids and `Date.now()` values are far below that bound.
- Strings are sequences of code points; `substring(0, 50)` in the source counts
  UTF-16 code units, so titles with characters outside the basic plane may be cut
  at a different place.
- Timestamps are integers; an invalid `Date` (NaN) in the feed sort is not modelled.
- The `messages.length / 2` counter and the static statistics tiles are display-only.
