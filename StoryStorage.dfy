// The storyforge key-value storage functions: books, characters, the
// assistant chat history and marketing content, each kept under its own
// key. The store is an object whose fields are the four items (None when
// the key is absent); whether a read or a write succeeds is a parameter.
module StoryStorage {
  import opened Common
  import opened BoundedLog
  import opened KeyedList

  /** Only the fields the storage functions look at; the rest of the
      record is carried along unchanged and is not spelled out. */
  datatype Book = Book(id: string, title: string)

  datatype Character = Character(id: string, name: string, description: string, visualNotes: string, personality: string)

  datatype ChatMessage = ChatMessage(role: string, content: string)

  datatype MarketingContent = MarketingContent(id: string, bookId: string, content: string)

  const CHAT_HISTORY_LIMIT := 100

  function BookId(b: Book): string {
    b.id
  }

  function CharacterId(c: Character): string {
    c.id
  }

  function MarketingId(m: MarketingContent): string {
    m.id
  }

  function MarketingBookId(m: MarketingContent): string {
    m.bookId
  }

  /** The four characters `getCharacters` stores when there are none. */
  function DefaultCharacters(): (r: seq<Character>)
    ensures |r| == 4
    ensures r[0].id == "1" && r[1].id == "2" && r[2].id == "3" && r[3].id == "4"
  {
    [ Character("1", AURORA_NAME, AURORA_DESCRIPTION, AURORA_VISUAL_NOTES, AURORA_PERSONALITY),
      Character("2", AZRAEL_NAME, AZRAEL_DESCRIPTION, AZRAEL_VISUAL_NOTES, AZRAEL_PERSONALITY),
      Character("3", KING_NAME, KING_DESCRIPTION, KING_VISUAL_NOTES, KING_PERSONALITY),
      Character("4", QUEEN_NAME, QUEEN_DESCRIPTION, QUEEN_VISUAL_NOTES, QUEEN_PERSONALITY) ]
  }

  const AURORA_NAME := "Queen Aurora Lightbringer"
  const AURORA_DESCRIPTION := "5-year-old protagonist with a vivid imagination"
  const AURORA_VISUAL_NOTES := "Wild curly red hair, big round glasses, homemade cardboard crown painted gold, colorful pajamas"
  const AURORA_PERSONALITY := "Strong-willed, imaginative, sees herself as a dragon queen. Reframes challenges as royal adventures."
  const AZRAEL_NAME := "Apprentice Azrael"
  const AZRAEL_DESCRIPTION := "Aurora's baby sister, the \"hatchling\""
  const AZRAEL_VISUAL_NOTES := "Baby wrapped in pink blanket, curious dark eyes, drools a lot"
  const AZRAEL_PERSONALITY := "Innocent, adorable, looks up to Aurora as her mentor"
  const KING_NAME := "The King (Dad)"
  const KING_DESCRIPTION := "Aurora's father, patient and supportive"
  const KING_VISUAL_NOTES := "Tired but loving dad, often has messy hair from lack of sleep"
  const KING_PERSONALITY := "Patient, plays along with Aurora's imagination, uses reframing techniques"
  const QUEEN_NAME := "The Queen (Mom)"
  const QUEEN_DESCRIPTION := "Aurora's mother, wise and understanding"
  const QUEEN_VISUAL_NOTES := "Warm, caring mom with dark circles under eyes but always smiling"
  const QUEEN_PERSONALITY := "Understanding, creative in handling Aurora's strong will, empathetic"

  /** What `getCharacters` returns: the stored list; the defaults when
      none is stored and storing them succeeds; [] when the read or that
      write fails. */
  function LoadedCharacters(stored: Option<seq<Character>>, readOk: bool, writeOk: bool): (r: seq<Character>)
    ensures !readOk ==> r == []
    ensures readOk && stored.Some? ==> r == stored.value
    ensures readOk && stored.None? ==> r == if writeOk then DefaultCharacters() else []
  {
    if !readOk then []
    else if stored.Some? then stored.value
    else if writeOk then DefaultCharacters()
    else []
  }

  /** The characters item after `getCharacters`: only an absent item that
      is read successfully is replaced, by the defaults. */
  function CharactersAfterLoad(stored: Option<seq<Character>>, readOk: bool, writeOk: bool): (r: Option<seq<Character>>)
    ensures r != stored <==> readOk && stored.None? && writeOk
    ensures r != stored ==> r == Some(DefaultCharacters())
  {
    if readOk && stored.None? && writeOk then Some(DefaultCharacters()) else stored
  }

  /** Loading the characters a second time reads back what the first load returned. */
  lemma LoadAgainSeesDefaults(stored: Option<seq<Character>>, writeOk: bool)
    ensures LoadedCharacters(CharactersAfterLoad(stored, true, writeOk), true, writeOk) == LoadedCharacters(stored, true, writeOk)
    ensures CharactersAfterLoad(CharactersAfterLoad(stored, true, writeOk), true, writeOk) == CharactersAfterLoad(stored, true, writeOk)
  {
  }

  class StoryStore {
    /** `@queen_aurora:books`. */
    var books: Option<seq<Book>>
    /** `@queen_aurora:characters`. */
    var characters: Option<seq<Character>>
    /** `@queen_aurora:chat_history`. */
    var chatHistory: Option<seq<ChatMessage>>
    /** `@queen_aurora:marketing`. */
    var marketing: Option<seq<MarketingContent>>

    constructor ()
      ensures books.None? && characters.None? && chatHistory.None? && marketing.None?
    {
      books := None;
      characters := None;
      chatHistory := None;
      marketing := None;
    }

    /** `getBooks`: a missing item or a failed read gives []. */
    function GetBooks(readOk: bool): (r: seq<Book>)
      reads this
      ensures readOk && books.Some? ==> r == books.value
      ensures !(readOk && books.Some?) ==> r == []
    {
      if readOk && books.Some? then books.value else []
    }

    /** `saveBook`: replaces the book with the same id in place, or appends it. */
    method SaveBook(book: Book, readOk: bool, writeOk: bool) returns (ok: bool)
      modifies this`books
      ensures ok == writeOk
      ensures ok ==> books == Some(Upsert(old(GetBooks(readOk)), book, BookId))
      ensures ok ==> GetBook(book.id, true) == Some(book)
      ensures !ok ==> books == old(books)
    {
      var all := GetBooks(readOk);
      ghost var before := all;
      var index := FindIndex(all, BookId, book.id);
      if index >= 0 {
        all := all[index := book];
      } else {
        all := all + [book];
      }
      if !writeOk {
        return false;
      }
      FindAfterUpsert(before, book, BookId);
      books := Some(all);
      return true;
    }

    /** `deleteBook`: keeps every book with another id, in order. */
    method DeleteBook(bookId: string, readOk: bool, writeOk: bool) returns (ok: bool)
      modifies this`books
      ensures ok == writeOk
      ensures ok ==> books == Some(RemoveKey(old(GetBooks(readOk)), BookId, bookId))
      ensures ok ==> GetBook(bookId, true).None?
      ensures !ok ==> books == old(books)
    {
      var all := GetBooks(readOk);
      var filtered := RemoveKey(all, BookId, bookId);
      if !writeOk {
        return false;
      }
      FindAfterRemove(all, BookId, bookId, bookId);
      books := Some(filtered);
      return true;
    }

    /** `getBook`: the first book with that id, or null. */
    function GetBook(bookId: string, readOk: bool): (r: Option<Book>)
      reads this
      ensures r.None? <==> forall i :: 0 <= i < |GetBooks(readOk)| ==> GetBooks(readOk)[i].id != bookId
      ensures r.Some? ==> r.value.id == bookId && r.value in GetBooks(readOk)
      ensures r.Some? ==>
        0 <= FindIndex(GetBooks(readOk), BookId, bookId)
        && r.value == GetBooks(readOk)[FindIndex(GetBooks(readOk), BookId, bookId)]
    {
      FindFirst(GetBooks(readOk), BookId, bookId)
    }

    /** `getCharacters`, which stores the default characters when there are none. */
    method GetCharacters(readOk: bool, writeOk: bool) returns (r: seq<Character>)
      modifies this`characters
      ensures r == LoadedCharacters(old(characters), readOk, writeOk)
      ensures characters == CharactersAfterLoad(old(characters), readOk, writeOk)
    {
      if !readOk {
        return [];
      }
      if characters.Some? {
        return characters.value;
      }
      var defaults := DefaultCharacters();
      if !writeOk {
        return [];
      }
      characters := Some(defaults);
      return defaults;
    }

    /** `saveCharacter`: an upsert by id into what `getCharacters` returned,
        so the defaults may be stored first (`defaultsWriteOk`) and then the
        list with the character (`writeOk`). */
    method SaveCharacter(character: Character, readOk: bool, defaultsWriteOk: bool, writeOk: bool) returns (ok: bool)
      modifies this`characters
      ensures ok == writeOk
      ensures ok ==> characters == Some(Upsert(LoadedCharacters(old(characters), readOk, defaultsWriteOk), character, CharacterId))
      ensures !ok ==> characters == CharactersAfterLoad(old(characters), readOk, defaultsWriteOk)
    {
      var all := GetCharacters(readOk, defaultsWriteOk);
      var index := FindIndex(all, CharacterId, character.id);
      if index >= 0 {
        all := all[index := character];
      } else {
        all := all + [character];
      }
      if !writeOk {
        return false;
      }
      characters := Some(all);
      return true;
    }

    function GetChatHistory(readOk: bool): (r: seq<ChatMessage>)
      reads this
      ensures readOk && chatHistory.Some? ==> r == chatHistory.value
      ensures !(readOk && chatHistory.Some?) ==> r == []
    {
      if readOk && chatHistory.Some? then chatHistory.value else []
    }

    /** `saveChatMessage`: appends, then keeps the newest 100. */
    method SaveChatMessage(message: ChatMessage, readOk: bool, writeOk: bool) returns (ok: bool)
      modifies this`chatHistory
      ensures ok == writeOk
      ensures ok ==> chatHistory == Some(KeepLast(old(GetChatHistory(readOk)) + [message], CHAT_HISTORY_LIMIT))
      ensures ok ==> |chatHistory.value| == if |old(GetChatHistory(readOk))| < CHAT_HISTORY_LIMIT then |old(GetChatHistory(readOk))| + 1 else CHAT_HISTORY_LIMIT
      ensures ok ==> chatHistory.value[|chatHistory.value| - 1] == message
      ensures !ok ==> chatHistory == old(chatHistory)
    {
      var history := GetChatHistory(readOk);
      history := history + [message];
      var trimmed := KeepLast(history, CHAT_HISTORY_LIMIT);
      if !writeOk {
        return false;
      }
      chatHistory := Some(trimmed);
      return true;
    }

    /** `clearChatHistory` stores an empty list (it does not remove the item). */
    method ClearChatHistory(writeOk: bool) returns (ok: bool)
      modifies this`chatHistory
      ensures ok == writeOk
      ensures chatHistory == if ok then Some([]) else old(chatHistory)
    {
      if !writeOk {
        return false;
      }
      chatHistory := Some([]);
      return true;
    }

    /** `getMarketingContent(bookId)`: with a non-empty book id, exactly the
        entries for that book, in stored order; otherwise everything. */
    function GetMarketingContent(bookId: Option<string>, readOk: bool): (r: seq<MarketingContent>)
      reads this
      ensures var all := if readOk && marketing.Some? then marketing.value else [];
        if Truthy(bookId) then forall m :: m in r <==> m in all && m.bookId == bookId.value
        else r == all
      ensures Truthy(bookId) ==>
        r == KeepKey(if readOk && marketing.Some? then marketing.value else [], MarketingBookId, bookId.value)
    {
      var all := if readOk && marketing.Some? then marketing.value else [];
      if Truthy(bookId) then
        KeepKeyExactly(all, MarketingBookId, bookId.value);
        KeepKey(all, MarketingBookId, bookId.value)
      else all
    }

    /** `saveMarketingContent`: an upsert by id into the whole list. */
    method SaveMarketingContent(content: MarketingContent, readOk: bool, writeOk: bool) returns (ok: bool)
      modifies this`marketing
      ensures ok == writeOk
      ensures ok ==> marketing == Some(Upsert(old(GetMarketingContent(None, readOk)), content, MarketingId))
      ensures !ok ==> marketing == old(marketing)
    {
      var all := GetMarketingContent(None, readOk);
      var index := FindIndex(all, MarketingId, content.id);
      if index >= 0 {
        all := all[index := content];
      } else {
        all := all + [content];
      }
      if !writeOk {
        return false;
      }
      marketing := Some(all);
      return true;
    }
  }

  /** The per-book view and the rest of the list together hold exactly the stored entries. */
  lemma MarketingPartition(all: seq<MarketingContent>, bookId: string)
    ensures multiset(KeepKey(all, MarketingBookId, bookId)) + multiset(RemoveKey(all, MarketingBookId, bookId)) == multiset(all)
  {
    FilterPartition(all, MarketingBookId, bookId);
  }

  /** A new entry for one book shows up, at the end, in that book's view and in no other. */
  lemma NewMarketingEntryView(all: seq<MarketingContent>, content: MarketingContent, bookId: string)
    requires forall i :: 0 <= i < |all| ==> all[i].id != content.id
    ensures KeepKey(Upsert(all, content, MarketingId), MarketingBookId, bookId)
         == KeepKey(all, MarketingBookId, bookId) + (if content.bookId == bookId then [content] else [])
  {
    UpsertLength(all, content, MarketingId);
    KeepKeyConcat(all, [content], MarketingBookId, bookId);
  }
}
