/** The list of conversations and its search box. */
module Chat {
  import opened Common
  import opened JsText

  datatype ConversationEntry = ConversationEntry(id: string, storeName: string, lastMessage: string,
                                                 timestamp: string, unreadCount: int, storeImage: string,
                                                 userId: string)

  /** The lower-cased store name contains the lower-cased query (not trimmed). */
  predicate MatchesStore(query: string, c: ConversationEntry)
  {
    Includes(Lower(c.storeName), Lower(query))
  }

  /** `filteredConversations` */
  function FilteredConversations(conversations: seq<ConversationEntry>, query: string): seq<ConversationEntry>
  {
    Filter(conversations, c => MatchesStore(query, c))
  }

  /** The filtered list keeps the order of the conversations and holds exactly those whose
      store name matches. */
  lemma FilteredConversationsSpec(conversations: seq<ConversationEntry>, query: string, c: ConversationEntry)
    ensures IsSubsequence(FilteredConversations(conversations, query), conversations)
    ensures c in FilteredConversations(conversations, query) <==> c in conversations && MatchesStore(query, c)
    ensures multiset(FilteredConversations(conversations, query))[c]
              == if MatchesStore(query, c) then multiset(conversations)[c] else 0
  {
    FilterCount(conversations, c => MatchesStore(query, c), c);
    FilterIsSubsequence(conversations, c => MatchesStore(query, c));
    FilterMembership(conversations, c => MatchesStore(query, c), c);
  }

  /** An empty search shows every conversation. */
  lemma EmptyQueryKeepsAll(conversations: seq<ConversationEntry>)
    ensures FilteredConversations(conversations, "") == conversations
  {
    forall i | 0 <= i < |conversations| ensures MatchesStore("", conversations[i]) {
      IncludesEmpty(Lower(conversations[i].storeName));
    }
    FilterKeepsAll(conversations, c => MatchesStore("", c));
  }

  /** The "No conversations yet" state is shown exactly when no store name matches. */
  lemma EmptyStateIffNoMatch(conversations: seq<ConversationEntry>, query: string)
    ensures (|FilteredConversations(conversations, query)| == 0)
              == (forall i :: 0 <= i < |conversations| ==> !MatchesStore(query, conversations[i]))
  {
    var kept := FilteredConversations(conversations, query);
    forall i | 0 <= i < |conversations| ensures conversations[i] in kept <==> MatchesStore(query, conversations[i]) {
      FilteredConversationsSpec(conversations, query, conversations[i]);
    }
    if |kept| != 0 {
      FilteredConversationsSpec(conversations, query, kept[0]);
      var i :| 0 <= i < |conversations| && conversations[i] == kept[0];
    }
  }
}
