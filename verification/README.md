# Barter backend — a Dafny model of its service core

The barter backend is a Spring service over Firestore and Cloudinary. Users publish barter posts (skills offered, wanted exchange, availability windows), review each other, and chat. This project models its five services and the records they store:

- `BarterPostService` lists posts through a filtered, enriched and paged query, and creates, edits and deletes posts with an owner check.
- `ReviewService` validates and stores reviews, deletes them, and recomputes the reviewee's average rating.
- `ChatService` creates direct and group chats, adds messages, and deletes chats with their messages.
- `UserProfileService` reads, creates, edits, partially updates and deletes profiles.
- `ImageUploadService` uploads images and deletes them by the public id found in their URL.

Each collection is a map in `Firestore.Database`: posts, profiles, reviews, chats, and messages keyed by (chat id, message id). Cloudinary is `Images.MediaStore`, the set of public ids it holds. The Java model objects are classes whose `Value()` is a record datatype, so a setter or `initDefaults` states its new state as an update of that record. Java `null` is `Option.None`. A thrown exception is an `Err`/`Fail` carrying the exception kind. The clock, generated document ids and the identifiers Cloudinary assigns are parameters.

Module layout:

| file | module |
|---|---|
| common.dfy | `Common`: Option, Result, Outcome, the error kinds |
| text.dfy | `Text`: Java string operations (toLowerCase, contains, compareTo, trim, lastIndexOf, split) |
| dates.dfy | `Dates`: calendar dates, `LocalDate.parse`, the UTC date of an `Instant` |
| availability_range.dfy | `AvailabilityRanges` |
| barter_post.dfy, user_profile.dfy, review.dfy, chat_conversation.dfy, chat_message.dfy | the model classes |
| firestore.dfy | `Firestore`: the database and the order of an `orderBy(createdAt, DESCENDING)` query |
| rating.dfy | `Ratings`: the HALF_UP average in hundredths |
| images.dfy | `Images`: the media store and `ImageUploadService` |
| post_listing.dfy | `PostListing`: the specification of `getFilteredPosts` |
| user_profile_service.dfy, review_service.dfy, chat_service.dfy, barter_post_service.dfy | the services |

The rating is a `Double` in the source. Here it is an integer number of hundredths. `BigDecimal.divide(count, 2, HALF_UP)` of an integer sum is exact in those terms, and the round trip through `doubleValue()` does not change a two-decimal value's meaning.

## Model

| member | source | states |
|---|---|---|
| Text.ToLower | backend/src/main/java/com/barter/backend/service/BarterPostService.java:180-185 | the lower-cased term has the same length and maps every character by the ASCII case mapping |
| Text.ContainsIffOccurs | backend/src/main/java/com/barter/backend/service/BarterPostService.java:183-185 | `contains` holds exactly when the term occurs at some position of the text |
| Text.LexLeTotal | backend/src/main/java/com/barter/backend/service/BarterPostService.java:114 | code-point order, the order Firestore sorts strings in (their UTF-8 bytes), is total |
| Text.LexLeAntisymmetric | backend/src/main/java/com/barter/backend/service/BarterPostService.java:114 | two strings ordered both ways by code point are equal |
| Text.LexLeTransitive | backend/src/main/java/com/barter/backend/service/BarterPostService.java:114 | code-point order is transitive |
| Text.LexLeReflexive | backend/src/main/java/com/barter/backend/service/BarterPostService.java:114 | every string is ordered before or equal to itself |
| Text.Utf16Injective | backend/src/main/java/com/barter/backend/service/ChatService.java:68-70 | different strings have different UTF-16 encodings, surrogate pairs included |
| Text.JavaLeTotal | backend/src/main/java/com/barter/backend/service/ChatService.java:68-70 | `compareTo`, which orders by UTF-16 code unit and sorts the two uids, is total |
| Text.JavaLeAntisymmetric | backend/src/main/java/com/barter/backend/service/ChatService.java:68-70 | two strings ordered both ways by `compareTo` are equal |
| Text.JavaLeTransitive | backend/src/main/java/com/barter/backend/service/ChatService.java:68-70 | the `compareTo` order is transitive |
| Text.JavaLeOfBmp | backend/src/main/java/com/barter/backend/service/ChatService.java:68-70 | on strings of the Basic Multilingual Plane, `compareTo` agrees with code-point order |
| Text.JavaLeDiffersAboveBmp | backend/src/main/java/com/barter/backend/service/ChatService.java:68-70 | `compareTo` puts U+10000 (high surrogate 0xD800) before U+FFFF, which code-point order does not |
| Text.TrimStartEmptyIff | backend/src/main/java/com/barter/backend/service/ImageUploadService.java:50 | trimming the front leaves nothing exactly when every character is at most a space |
| Text.TrimEndOfNonBlankStart | backend/src/main/java/com/barter/backend/service/ImageUploadService.java:50 | a string starting with a visible character keeps something after trimming its end |
| Text.BlankIffAllTrimmed | backend/src/main/java/com/barter/backend/service/ImageUploadService.java:50 | `trim().isEmpty()` holds exactly when every character is at most a space |
| Text.TrimStartKeepsFirst | backend/src/main/java/com/barter/backend/service/ImageUploadService.java:50 | what remains after trimming the front starts with a visible character |
| Text.LastIndexOf | backend/src/main/java/com/barter/backend/service/ImageUploadService.java:67 | `lastIndexOf` is -1 exactly when the character is absent, otherwise the last position holding it |
| Text.StripTrailing | backend/src/main/java/com/barter/backend/service/ImageUploadService.java:62 | `split` drops trailing separators: the result is a prefix that does not end with the separator |
| Text.AfterLast | backend/src/main/java/com/barter/backend/service/ImageUploadService.java:63 | the text after the last separator contains no separator |
| Dates.ParseLocalDate | backend/src/main/java/com/barter/backend/service/BarterPostService.java:193 | `LocalDate.parse` of a YYYY-MM-DD string yields only valid calendar dates |
| Dates.ParseInstantDate | backend/src/main/java/com/barter/backend/model/AvailabilityRange.java:38 | the UTC date of a parsed instant is a valid calendar date |
| Dates.ParseFormatRoundTrip | backend/src/main/java/com/barter/backend/service/BarterPostService.java:193 | parsing the ISO form of any valid date gives that date back |
| Dates.ParseInstantOfTime | backend/src/main/java/com/barter/backend/model/AvailabilityRange.java:38 | an instant at any time of day before 24:00, with any fraction and the leap second 23:59:60 included, has the written day as its UTC date; 24:00:00 with a zero fraction is the next day; any other time does not parse |
| Dates.ParseInstantOfMidnight | backend/src/main/java/com/barter/backend/model/AvailabilityRange.java:38 | the instant at UTC midnight of a date has that date as its UTC date |
| AvailabilityRanges.ParseStartDateForFiltering | backend/src/main/java/com/barter/backend/model/AvailabilityRange.java:33-43 | a null or empty start gives null; any other start gives exactly the UTC date of the parsed instant, or null when it does not parse, and that date is valid |
| AvailabilityRanges.ParseEndDateForFiltering | backend/src/main/java/com/barter/backend/model/AvailabilityRange.java:45-55 | a null or empty end gives null; any other end gives exactly the UTC date of the parsed instant, or null when it does not parse, and that date is valid |
| AvailabilityRanges.MidnightWindowCovers | backend/src/main/java/com/barter/backend/service/BarterPostService.java:200-205 | a range from midnight of a to midnight of b covers exactly the days a..b inclusive |
| AvailabilityRanges.JulyWindowExample | backend/src/main/java/com/barter/backend/service/BarterPostService.java:200-205 | a 1-10 July range covers 5 July and neither 30 June nor 11 July |
| BarterPosts.InitDefaultsOf | backend/src/main/java/com/barter/backend/model/BarterPost.java:49-56 | createdAt is set to now only when null and status to "open" only when null or empty; every other field is kept |
| BarterPosts.InitDefaultsIdempotent | backend/src/main/java/com/barter/backend/model/BarterPost.java:49-56 | applying the defaults twice is the same as applying them once |
| BarterPosts.BarterPost.constructor | backend/src/main/java/com/barter/backend/model/BarterPost.java:25-26 | a new post has every field null |
| BarterPosts.BarterPost.FromRecord | backend/src/main/java/com/barter/backend/model/BarterPost.java:28-47 | the object holds exactly the given field values |
| BarterPosts.BarterPost.InitDefaults | backend/src/main/java/com/barter/backend/model/BarterPost.java:49-56 | the new state is the defaults applied to the old state |
| BarterPosts.BarterPost.SetId | backend/src/main/java/com/barter/backend/model/BarterPost.java:64-66 | that one field takes the given value and nothing else changes |
| BarterPosts.BarterPost.SetUserFirebaseUid | backend/src/main/java/com/barter/backend/model/BarterPost.java:72-74 | that one field takes the given value and nothing else changes |
| BarterPosts.BarterPost.SetTitle | backend/src/main/java/com/barter/backend/model/BarterPost.java:80-82 | that one field takes the given value and nothing else changes |
| BarterPosts.BarterPost.SetDescription | backend/src/main/java/com/barter/backend/model/BarterPost.java:88-90 | that one field takes the given value and nothing else changes |
| BarterPosts.BarterPost.SetType | backend/src/main/java/com/barter/backend/model/BarterPost.java:96-98 | that one field takes the given value and nothing else changes |
| BarterPosts.BarterPost.SetTags | backend/src/main/java/com/barter/backend/model/BarterPost.java:104-106 | that one field takes the given value and nothing else changes |
| BarterPosts.BarterPost.SetPreferredExchange | backend/src/main/java/com/barter/backend/model/BarterPost.java:112-114 | that one field takes the given value and nothing else changes |
| BarterPosts.BarterPost.SetImageUrl | backend/src/main/java/com/barter/backend/model/BarterPost.java:120-122 | that one field takes the given value and nothing else changes |
| BarterPosts.BarterPost.SetLocation | backend/src/main/java/com/barter/backend/model/BarterPost.java:128-130 | that one field takes the given value and nothing else changes |
| BarterPosts.BarterPost.SetAvailability | backend/src/main/java/com/barter/backend/model/BarterPost.java:136-138 | that one field takes the given value and nothing else changes |
| BarterPosts.BarterPost.SetStatus | backend/src/main/java/com/barter/backend/model/BarterPost.java:144-146 | that one field takes the given value and nothing else changes |
| BarterPosts.BarterPost.SetCreatedAt | backend/src/main/java/com/barter/backend/model/BarterPost.java:152-154 | that one field takes the given value and nothing else changes |
| BarterPosts.BarterPost.SetDisplayName | backend/src/main/java/com/barter/backend/model/BarterPost.java:160-162 | that one field takes the given value and nothing else changes |
| BarterPosts.BarterPost.SetProfileImageUrl | backend/src/main/java/com/barter/backend/model/BarterPost.java:168-170 | that one field takes the given value and nothing else changes |
| ChatConversations.InitDefaultsOf | backend/src/main/java/com/barter/backend/model/ChatConversation.java:37-44 | a null or empty createdAt becomes now; a null or empty updatedAt becomes createdAt; other fields kept |
| ChatConversations.FreshChatTimestamps | backend/src/main/java/com/barter/backend/model/ChatConversation.java:37-44 | a fresh conversation gets createdAt == updatedAt == now |
| ChatConversations.InitDefaultsIdempotent | backend/src/main/java/com/barter/backend/model/ChatConversation.java:37-44 | applying the defaults twice is the same as once |
| ChatConversations.ChatConversation.constructor | backend/src/main/java/com/barter/backend/model/ChatConversation.java:22-23 | a new conversation has every field null |
| ChatConversations.ChatConversation.FromRecord | backend/src/main/java/com/barter/backend/model/ChatConversation.java:26-34 | the object holds exactly the given field values |
| ChatConversations.ChatConversation.InitDefaults | backend/src/main/java/com/barter/backend/model/ChatConversation.java:37-44 | the new state is the defaults applied to the old state |
| ChatConversations.ChatConversation.SetId | backend/src/main/java/com/barter/backend/model/ChatConversation.java:52-54 | that one field takes the given value and nothing else changes |
| ChatConversations.ChatConversation.SetParticipants | backend/src/main/java/com/barter/backend/model/ChatConversation.java:60-62 | that one field takes the given value and nothing else changes |
| ChatConversations.ChatConversation.SetType | backend/src/main/java/com/barter/backend/model/ChatConversation.java:68-70 | that one field takes the given value and nothing else changes |
| ChatConversations.ChatConversation.SetName | backend/src/main/java/com/barter/backend/model/ChatConversation.java:76-78 | that one field takes the given value and nothing else changes |
| ChatMessages.InitDefaultsOf | backend/src/main/java/com/barter/backend/model/ChatMessage.java:31-35 | a null or empty createdAt becomes now; every other field is kept |
| ChatMessages.ChatMessage.FromRecord | backend/src/main/java/com/barter/backend/model/ChatMessage.java:20-28 | the object holds exactly the given field values |
| ChatMessages.ChatMessage.InitDefaults | backend/src/main/java/com/barter/backend/model/ChatMessage.java:31-35 | the new state is the defaults applied to the old state |
| ChatMessages.ChatMessage.SetId | backend/src/main/java/com/barter/backend/model/ChatMessage.java:43-45 | that one field takes the given value and nothing else changes |
| ChatMessages.ChatMessage.SetChatId | backend/src/main/java/com/barter/backend/model/ChatMessage.java:51-53 | that one field takes the given value and nothing else changes |
| ChatMessages.ChatMessage.SetSenderId | backend/src/main/java/com/barter/backend/model/ChatMessage.java:59-61 | that one field takes the given value and nothing else changes |
| ChatMessages.ChatMessage.SetText | backend/src/main/java/com/barter/backend/model/ChatMessage.java:67-69 | that one field takes the given value and nothing else changes |
| ChatMessages.ChatMessage.SetCreatedAt | backend/src/main/java/com/barter/backend/model/ChatMessage.java:75-77 | that one field takes the given value and nothing else changes |
| ChatMessages.ChatMessage.SetSenderDisplayName | backend/src/main/java/com/barter/backend/model/ChatMessage.java:83-85 | that one field takes the given value and nothing else changes |
| ChatMessages.ChatMessage.SetSenderProfileImageUrl | backend/src/main/java/com/barter/backend/model/ChatMessage.java:91-93 | that one field takes the given value and nothing else changes |
| Reviews.InitDefaultsOf | backend/src/main/java/com/barter/backend/model/Review.java:45-49 | a null or empty createdAt becomes now; every other field is kept |
| Reviews.Review.FromRecord | backend/src/main/java/com/barter/backend/model/Review.java:11-17 | the object holds exactly the given field values |
| Reviews.Review.InitDefaults | backend/src/main/java/com/barter/backend/model/Review.java:45-49 | the new state is the defaults applied to the old state |
| Reviews.Review.SetId | backend/src/main/java/com/barter/backend/model/Review.java:53 | only the id changes |
| Reviews.Review.SetFromUser | backend/src/main/java/com/barter/backend/model/Review.java:69 | only the nested reviewer changes |
| UserProfiles.InitDefaultsOf | backend/src/main/java/com/barter/backend/model/UserProfile.java:29-39 | null createdAt becomes now, null rating 0, null bio ""; every other field is kept |
| UserProfiles.InitDefaultsIdempotent | backend/src/main/java/com/barter/backend/model/UserProfile.java:29-39 | applying the defaults twice is the same as once |
| UserProfiles.UserProfile.FromRecord | backend/src/main/java/com/barter/backend/model/UserProfile.java:15-26 | the object holds exactly the given field values |
| UserProfiles.UserProfile.InitDefaults | backend/src/main/java/com/barter/backend/model/UserProfile.java:29-39 | the new state is the defaults applied to the old state |
| UserProfiles.UserProfile.SetId | backend/src/main/java/com/barter/backend/model/UserProfile.java:54-56 | that one field takes the given value and nothing else changes |
| UserProfiles.UserProfile.SetDisplayName | backend/src/main/java/com/barter/backend/model/UserProfile.java:70-72 | that one field takes the given value and nothing else changes |
| UserProfiles.UserProfile.SetLocation | backend/src/main/java/com/barter/backend/model/UserProfile.java:78-80 | that one field takes the given value and nothing else changes |
| UserProfiles.UserProfile.SetBio | backend/src/main/java/com/barter/backend/model/UserProfile.java:86-88 | that one field takes the given value and nothing else changes |
| UserProfiles.UserProfile.SetSkillsOffered | backend/src/main/java/com/barter/backend/model/UserProfile.java:94-96 | that one field takes the given value and nothing else changes |
| UserProfiles.UserProfile.SetNeeds | backend/src/main/java/com/barter/backend/model/UserProfile.java:102-104 | that one field takes the given value and nothing else changes |
| UserProfiles.UserProfile.SetCreatedAt | backend/src/main/java/com/barter/backend/model/UserProfile.java:118-120 | that one field takes the given value and nothing else changes |
| UserProfiles.UserProfile.SetProfileImageUrl | backend/src/main/java/com/barter/backend/model/UserProfile.java:126-128 | that one field takes the given value and nothing else changes |
| Firestore.QueryOrder | backend/src/main/java/com/barter/backend/service/BarterPostService.java:114 | returns every matching document exactly once, in descending (createdAt, document id) order |
| Firestore.QueryOrderUnique | backend/src/main/java/com/barter/backend/service/BarterPostService.java:114 | the descending query order is unique: two results of the same query are equal |
| Ratings.UserRating | backend/src/main/java/com/barter/backend/service/ReviewService.java:450-453 | no reviews give rating 0 |
| Ratings.RoundHalfUpBounds | backend/src/main/java/com/barter/backend/service/ReviewService.java:452 | the HALF_UP quotient lies within half a divisor of the exact one, a half going away from zero |
| Ratings.RoundHalfUpUnique | backend/src/main/java/com/barter/backend/service/ReviewService.java:452 | the HALF_UP quotient is the only integer within those bounds |
| Ratings.SumBounds | backend/src/main/java/com/barter/backend/service/ReviewService.java:445-448 | ratings between lo and hi sum to between n*lo and n*hi |
| Ratings.UserRatingInRange | backend/src/main/java/com/barter/backend/service/ReviewService.java:450-453 | with ratings 1..5 the average lies between 1.00 and 5.00 |
| Ratings.UniformRatings | backend/src/main/java/com/barter/backend/service/ReviewService.java:450-453 | n equal ratings average to exactly that rating |
| Ratings.SumPermutation | backend/src/main/java/com/barter/backend/service/ReviewService.java:445-448 | the total does not depend on the order of the reviews |
| Ratings.UserRatingPermutation | backend/src/main/java/com/barter/backend/service/ReviewService.java:445-453 | the average does not depend on the order of the reviews |
| Ratings.RatingExamples | backend/src/main/java/com/barter/backend/service/ReviewService.java:450-453 | 5,3,4 give 4.00; 5,4 give 4.50; 1,2,2 give 1.67; 2,2,3 give 2.33 |
| Ratings.NegativeHalfRoundsAway | backend/src/main/java/com/barter/backend/service/ReviewService.java:452 | HALF_UP rounds 2.5 to 3 and -2.5 to -3 |
| Images.UrlPath | backend/src/main/java/com/barter/backend/service/ImageUploadService.java:59-60 | the path of a URL is empty or starts with "/", and holds no query or fragment |
| Images.PathAfterScheme | backend/src/main/java/com/barter/backend/service/ImageUploadService.java:59-60 | what follows the scheme yields a path that is empty or starts with "/", with no query or fragment |
| Images.PathAfterHost | backend/src/main/java/com/barter/backend/service/ImageUploadService.java:59-60 | behind a host holding no "/", "?" or "#", the path is everything from the first "/" |
| Images.StripExtension | backend/src/main/java/com/barter/backend/service/ImageUploadService.java:66-72 | the result is the segment cut before its last dot when that dot is not first, else the whole segment |
| Images.JavaSplitLast | backend/src/main/java/com/barter/backend/service/ImageUploadService.java:62-63 | `split("/")` is empty exactly when the path is only slashes; otherwise its last element is the text after the last non-trailing slash |
| Images.ExtractPublicIdOfPath | backend/src/main/java/com/barter/backend/service/ImageUploadService.java:59-72 | the public id is the last path segment without its extension; an all-slash path fails |
| Images.StripExtensionOfName | backend/src/main/java/com/barter/backend/service/ImageUploadService.java:67-69 | cutting the extension off "id.format" gives back id |
| Images.UrlPathOfHttps | backend/src/main/java/com/barter/backend/service/ImageUploadService.java:59-60 | the path of https://host/path is /path |
| Images.PublicIdOfPathEnd | backend/src/main/java/com/barter/backend/service/ImageUploadService.java:62-72 | the public id is taken from the last segment of the path |
| Images.PublicIdOfSecureUrl | backend/src/main/java/com/barter/backend/service/ImageUploadService.java:31-72 | the public id extracted from an uploaded image's secure URL is the id it was uploaded under |
| Images.MediaStore.Upload | backend/src/main/java/com/barter/backend/service/ImageUploadService.java:31-32 | the id joins the stored images and the secure URL is returned |
| Images.MediaStore.Destroy | backend/src/main/java/com/barter/backend/service/ImageUploadService.java:75-77 | the id leaves the stored images; the result is "ok" exactly when it was there |
| Images.AfterDelete | backend/src/main/java/com/barter/backend/service/ImageUploadService.java:49-91 | deleting an image removes at most the public id its URL names |
| Images.ImageUploadService.constructor | backend/src/main/java/com/barter/backend/service/ImageUploadService.java:22-24 | the service uses the given media store |
| Images.ImageUploadService.UploadImage | backend/src/main/java/com/barter/backend/service/ImageUploadService.java:26-39 | an empty file is rejected with nothing stored; otherwise the image is stored and its secure URL returned |
| Images.ImageUploadService.DeleteImage | backend/src/main/java/com/barter/backend/service/ImageUploadService.java:49-91 | a null or blank URL is skipped; otherwise the named image is destroyed and a bad URL or a missing image fails |
| Images.DeleteAfterUpload | backend/src/main/java/com/barter/backend/service/ImageUploadService.java:49-91 | deleting by the secure URL of a stored upload succeeds |
| PostListing.EffectiveStatus | backend/src/main/java/com/barter/backend/service/BarterPostService.java:82 | the status filter is the given status, or "open" when none is given |
| PostListing.QueryField | backend/src/main/java/com/barter/backend/service/BarterPostService.java:82-114 | the query selects exactly the posts matching status, uploader, location and tags, keyed by createdAt |
| PostListing.Candidates | backend/src/main/java/com/barter/backend/service/BarterPostService.java:127-138 | the fetched posts in query order, each with its document id set |
| PostListing.WithOwner | backend/src/main/java/com/barter/backend/service/BarterPostService.java:156-166 | the owner's name and picture are copied in, or "Unknown User" and null without a profile; nothing else changes |
| PostListing.Enrich | backend/src/main/java/com/barter/backend/service/BarterPostService.java:155-168 | every post is joined with its owner's profile, in order |
| PostListing.Filter | backend/src/main/java/com/barter/backend/service/BarterPostService.java:181-187 | the kept posts are exactly those satisfying the predicate |
| PostListing.Page | backend/src/main/java/com/barter/backend/service/BarterPostService.java:224-236 | the page fails exactly when start lies before the end of the list and is negative or size is negative (subList throws) |
| PostListing.FilteredIsSubsequence | backend/src/main/java/com/barter/backend/service/BarterPostService.java:176-212 | the in-memory filters keep posts in their order and add none |
| PostListing.FilteredMembers | backend/src/main/java/com/barter/backend/service/BarterPostService.java:179-212 | a post survives exactly when it matches the search term and, for a parseable date, is available that day |
| PostListing.UnparseableAvailabilityKeepsAll | backend/src/main/java/com/barter/backend/service/BarterPostService.java:208-211 | an unparseable availability date leaves the list unfiltered |
| PostListing.CandidatesDescending | backend/src/main/java/com/barter/backend/service/BarterPostService.java:114-168 | the joined posts are in descending (createdAt, id) order |
| PostListing.FilteredDescending | backend/src/main/java/com/barter/backend/service/BarterPostService.java:114-212 | the filtered posts remain in descending (createdAt, id) order |
| PostListing.CandidateMembers | backend/src/main/java/com/barter/backend/service/BarterPostService.java:116-168 | a post is in the joined list exactly when it is the join of some stored post matching the query |
| PostListing.ListedPostsMatch | backend/src/main/java/com/barter/backend/service/BarterPostService.java:61-237 | every listed post matches the query, the search term and the availability date, and carries its owner's name |
| PostListing.ListingDeterministic | backend/src/main/java/com/barter/backend/service/BarterPostService.java:114-237 | the listing is determined by the stored data and the query |
| PostListing.PageContents | backend/src/main/java/com/barter/backend/service/BarterPostService.java:224-236 | a page holds min(size, n - page*size) posts starting at page*size, or none past the end |
| PostListing.PageBounds | backend/src/main/java/com/barter/backend/service/BarterPostService.java:224-236 | a page holds at most size posts; a page past the end is empty |
| PostListing.FirstPagesArePrefix | backend/src/main/java/com/barter/backend/service/BarterPostService.java:224-236 | the first k pages together are the first k*size posts |
| PostListing.AllPagesCoverList | backend/src/main/java/com/barter/backend/service/BarterPostService.java:224-236 | enough pages together give back the whole list |
| PostListing.PagesDisjoint | backend/src/main/java/com/barter/backend/service/BarterPostService.java:224-236 | no post of a duplicate-free list appears on two pages |
| PostListing.PageDistinct | backend/src/main/java/com/barter/backend/service/BarterPostService.java:224-236 | a page cut from a list without repeats has no repeats |
| PostListing.FilteredDistinct | backend/src/main/java/com/barter/backend/service/BarterPostService.java:112-212 | the filtered, joined query result holds no post twice, since each post carries its own document id |
| PostListing.ListingDistinct | backend/src/main/java/com/barter/backend/service/BarterPostService.java:61-236 | a returned page of the listing holds no post twice |
| PostListing.ListingPagesDisjoint | backend/src/main/java/com/barter/backend/service/BarterPostService.java:224-236 | two different pages of the same listing share no post |
| UserProfileServices.FieldsDetermineProfile | backend/src/main/java/com/barter/backend/service/UserProfileService.java:223 | a profile is determined by the values of its stored fields |
| UserProfileServices.ApplyUpdates | backend/src/main/java/com/barter/backend/service/UserProfileService.java:223 | each field named in the update map with a value of its type takes that value; every other field is kept |
| UserProfileServices.UpdateOfNoFieldIsIdentity | backend/src/main/java/com/barter/backend/service/UserProfileService.java:223 | an update naming no stored field changes nothing |
| UserProfileServices.RatingUpdate | backend/src/main/java/com/barter/backend/service/UserProfileService.java:223 | updating "rating" changes only the rating |
| UserProfileServices.NewProfileOf | backend/src/main/java/com/barter/backend/service/UserProfileService.java:80-110 | defaults are applied, the image URL is the upload's or null, every other field is as given |
| UserProfileServices.MergeProfile | backend/src/main/java/com/barter/backend/service/UserProfileService.java:138-154 | each of name, location, bio, skills and needs takes the incoming value when present; all else is kept |
| UserProfileServices.MergeKeepsProtectedFields | backend/src/main/java/com/barter/backend/service/UserProfileService.java:156-160 | a merge never changes rating, email, createdAt, uid, id or image URL |
| UserProfileServices.MergeIdentityAndIdempotence | backend/src/main/java/com/barter/backend/service/UserProfileService.java:138-154 | merging an empty profile changes nothing, and merging twice equals merging once |
| UserProfileServices.UserProfileService.constructor | backend/src/main/java/com/barter/backend/service/UserProfileService.java:27-29 | the service uses the given database and image service |
| UserProfileServices.UserProfileService.GetUserProfileByFirebaseUid | backend/src/main/java/com/barter/backend/service/UserProfileService.java:59-78 | empty exactly when no profile is stored; otherwise the stored profile with its id and defaults set |
| UserProfileServices.UserProfileService.CreateUser | backend/src/main/java/com/barter/backend/service/UserProfileService.java:80-118 | fails with IllegalArgument exactly when the uid is null or empty; otherwise stores the defaulted profile under its uid; a non-empty image is uploaded first in either case |
| UserProfileServices.UserProfileService.UpdateUser | backend/src/main/java/com/barter/backend/service/UserProfileService.java:120-196 | not found leaves everything; otherwise stores the merge with the new, removed or kept image URL, deleting the replaced image |
| UserProfileServices.UserProfileService.ApplyEdits | backend/src/main/java/com/barter/backend/service/UserProfileService.java:138-154 | the profile object becomes the merge of its old value with the incoming fields |
| UserProfileServices.UserProfileService.UpdateUserProfileFields | backend/src/main/java/com/barter/backend/service/UserProfileService.java:207-231 | an empty uid fails, an empty map does nothing, a missing profile is not found; otherwise exactly the update is applied |
| UserProfileServices.UserProfileService.DeleteUser | backend/src/main/java/com/barter/backend/service/UserProfileService.java:234-269 | not found leaves everything; otherwise the profile is removed and its image deleted |
| ReviewServices.WithReviewer | backend/src/main/java/com/barter/backend/service/ReviewService.java:421-428 | a review with a reviewer uid gets a nested reviewer with that uid and the name the fetched map holds for it, or "Unknown User" when the map has none; a review without one is unchanged; nothing else changes |
| ReviewServices.Reviewed | backend/src/main/java/com/barter/backend/service/ReviewService.java:142-148 | the enriched review keeps its rating |
| ReviewServices.PopulatedFromFetchedNames | backend/src/main/java/com/barter/backend/service/ReviewService.java:140-147 | filling in names from the fetched map equals reading the profile directly |
| ReviewServices.ReviewField | backend/src/main/java/com/barter/backend/service/ReviewService.java:128-131 | the query selects exactly the reviews to the user, keyed by createdAt |
| ReviewServices.RatingsAt | backend/src/main/java/com/barter/backend/service/ReviewService.java:445-448 | the ratings of the listed reviews, in order |
| ReviewServices.RatingsOf | backend/src/main/java/com/barter/backend/service/ReviewService.java:445-448 | the ratings of the given reviews, in order |
| ReviewServices.RatedProfiles | backend/src/main/java/com/barter/backend/service/ReviewService.java:455-459 | only the user's rating changes, and only when the user has a profile |
| ReviewServices.RatingWritten | backend/src/main/java/com/barter/backend/service/ReviewService.java:455-459 | the outcome of the rating update leaves the profiles as RatedProfiles says |
| ReviewServices.RecomputedFromList | backend/src/main/java/com/barter/backend/service/ReviewService.java:437-467 | the rating written is the rounded average of all reviews currently addressed to the user |
| ReviewServices.RecomputedRatingInRange | backend/src/main/java/com/barter/backend/service/ReviewService.java:450-453 | with valid ratings and at least one review, the recomputed rating lies in 1.00..5.00 |
| ReviewServices.UnreviewedRatingIsZero | backend/src/main/java/com/barter/backend/service/ReviewService.java:450-453 | a user without reviews gets rating 0 |
| ReviewServices.CreatedReview | backend/src/main/java/com/barter/backend/service/ReviewService.java:283-310 | the stored review has the generated id, a reviewer with the fetched name or "Unknown User", and defaults applied |
| ReviewServices.ReviewService.constructor | backend/src/main/java/com/barter/backend/service/ReviewService.java:39-41 | the service shares the profile service's database |
| ReviewServices.ReviewService.FetchDisplayNamesForUids | backend/src/main/java/com/barter/backend/service/ReviewService.java:388-413 | one entry per uid, holding the profile's name or "Unknown User" |
| ReviewServices.ReviewService.PopulateReviewFromUser | backend/src/main/java/com/barter/backend/service/ReviewService.java:421-428 | the review object becomes WithReviewer of its old value |
| ReviewServices.ReviewService.GetReviewsToUser | backend/src/main/java/com/barter/backend/service/ReviewService.java:125-160 | every review to the user exactly once, newest first, each with its id and reviewer name |
| ReviewServices.ReviewService.TotalRating | backend/src/main/java/com/barter/backend/service/ReviewService.java:442-448 | the loop's total is the sum of the ratings and its count the number of reviews |
| ReviewServices.ReviewService.RecalculateAndSaveUserRating | backend/src/main/java/com/barter/backend/service/ReviewService.java:437-467 | the user's stored rating becomes the rounded average of their reviews; nothing else changes |
| ReviewServices.ReviewService.CreateReview | backend/src/main/java/com/barter/backend/service/ReviewService.java:272-328 | invalid input fails with IllegalArgument and changes nothing; otherwise the review is stored and the reviewee's rating recomputed; valid ratings stay valid |
| ReviewServices.ReviewService.DeleteReview | backend/src/main/java/com/barter/backend/service/ReviewService.java:338-380 | not found or no reviewee fails and changes nothing; a review with a reviewee is always removed, with Done, and the reviewee's rating recomputed over the remaining reviews |
| ChatServices.IndexOfJoin | backend/src/main/java/com/barter/backend/service/ChatService.java:70 | in x + "_" + y with no "_" in x, the first "_" is the separator |
| ChatServices.JoinInjective | backend/src/main/java/com/barter/backend/service/ChatService.java:70 | joining with "_" is injective when the first parts have no "_" |
| ChatServices.DirectChatId | backend/src/main/java/com/barter/backend/service/ChatService.java:67-70 | the id joins the two uids with "_", the first one no later than the second in `compareTo` (UTF-16 code unit) order |
| ChatServices.DirectChatIdSymmetric | backend/src/main/java/com/barter/backend/service/ChatService.java:67-70 | both orders of the participants give the same chat id |
| ChatServices.DirectChatIdInjective | backend/src/main/java/com/barter/backend/service/ChatService.java:67-70 | for uids without "_", equal ids mean the same pair of participants |
| ChatServices.DirectChatIdAboveBmp | backend/src/main/java/com/barter/backend/service/ChatService.java:67-70 | the uids are sorted by UTF-16 code unit: the pair (U+FFFF, U+10000) gets the id "U+10000_U+FFFF" |
| ChatServices.DirectChatIdCollision | backend/src/main/java/com/barter/backend/service/ChatService.java:67-70 | the pairs (a_b, c) and (a, b_c) share the id a_b_c |
| ChatServices.NewChat | backend/src/main/java/com/barter/backend/service/ChatService.java:97-101 | the new chat holds the participants, type and name, createdAt == updatedAt == now, no id and no last message |
| ChatServices.Sent | backend/src/main/java/com/barter/backend/service/ChatService.java:150-163 | createdAt defaults to now; the sender's name and picture are copied in, or "Unknown User" and null without a profile |
| ChatServices.ChatService.constructor | backend/src/main/java/com/barter/backend/service/ChatService.java:39-41 | the service shares the profile service's database |
| ChatServices.ChatService.CreateChat | backend/src/main/java/com/barter/backend/service/ChatService.java:54-126 | fails with IllegalArgument exactly on an invalid request; a direct chat is found or created under its sorted id; a group chat is created under a fresh id |
| ChatServices.ChatService.AddMessage | backend/src/main/java/com/barter/backend/service/ChatService.java:138-195 | an invalid request changes nothing; otherwise the message is stored; the chat's last message and updatedAt are set, or the call fails when the chat is missing |
| ChatServices.ChatService.DeleteChat | backend/src/main/java/com/barter/backend/service/ChatService.java:302-323 | every message of the chat and the chat itself are removed; nothing else changes |
| BarterPostServices.Owners | backend/src/main/java/com/barter/backend/service/BarterPostService.java:133 | the owner uid of each fetched post, in order |
| BarterPostServices.NewPost | backend/src/main/java/com/barter/backend/service/BarterPostService.java:248-299 | the post gets the id, uid, now, status "open", the image URL and the owner's name; all other fields are as sent |
| BarterPostServices.NewPostIsListed | backend/src/main/java/com/barter/backend/service/BarterPostService.java:248-252 | a created post matches every open listing query without location and tag filters, for any uploader filter naming its owner |
| BarterPostServices.EditView | backend/src/main/java/com/barter/backend/service/BarterPostService.java:302-342 | Ok exactly for the owner; not found, null owner and other users fail distinctly; the result carries the id; its display name and profile image are the requester's profile's, or "Unknown User" and null when there is no profile |
| BarterPostServices.NewPostEditableOnlyByOwner | backend/src/main/java/com/barter/backend/service/BarterPostService.java:302-317 | a just-created post can be opened for editing exactly by its creator |
| BarterPostServices.MergePost | backend/src/main/java/com/barter/backend/service/BarterPostService.java:408-432 | each editable field takes the sent value when present; id, owner, createdAt and image are kept |
| BarterPostServices.MergePostIdentityAndIdempotence | backend/src/main/java/com/barter/backend/service/BarterPostService.java:408-432 | merging an empty request changes nothing and merging twice equals merging once |
| BarterPostServices.UpdatedPost | backend/src/main/java/com/barter/backend/service/BarterPostService.java:408-467 | the merged post with the chosen image URL, keeping id, owner and createdAt; display name and profile image from the owner's profile, or "Unknown User" and null when there is none |
| BarterPostServices.BarterPostService.constructor | backend/src/main/java/com/barter/backend/service/BarterPostService.java:40-42 | the service uses the given database and image service |
| BarterPostServices.BarterPostService.GetFilteredPosts | backend/src/main/java/com/barter/backend/service/BarterPostService.java:61-237 | returns the Listing of the posts in query order; each owner profile is fetched once |
| BarterPostServices.BarterPostService.QueryResult | backend/src/main/java/com/barter/backend/service/BarterPostService.java:127-138 | the fetched posts with ids, and their owner uids |
| BarterPostServices.BarterPostService.Distinct | backend/src/main/java/com/barter/backend/service/BarterPostService.java:142 | the same uids without repetition |
| BarterPostServices.BarterPostService.FetchOwners | backend/src/main/java/com/barter/backend/service/BarterPostService.java:142-153 | fails exactly on a null uid; otherwise maps each fetched uid that has a profile to it |
| BarterPostServices.BarterPostService.JoinOwners | backend/src/main/java/com/barter/backend/service/BarterPostService.java:155-168 | the result is Enrich of the posts |
| BarterPostServices.BarterPostService.JoinOwner | backend/src/main/java/com/barter/backend/service/BarterPostService.java:156-166 | the post becomes WithOwner of its old value |
| BarterPostServices.BarterPostService.CreatePost | backend/src/main/java/com/barter/backend/service/BarterPostService.java:248-299 | stores and returns NewPost under the generated id; a non-empty image is uploaded |
| BarterPostServices.BarterPostService.GetPostByIdForEdit | backend/src/main/java/com/barter/backend/service/BarterPostService.java:302-342 | the result is EditView of the stored posts and profiles |
| BarterPostServices.BarterPostService.ApplyEdits | backend/src/main/java/com/barter/backend/service/BarterPostService.java:408-432 | the post object becomes MergePost of its old value |
| BarterPostServices.BarterPostService.UpdatePost | backend/src/main/java/com/barter/backend/service/BarterPostService.java:382-479 | not found or not owner changes nothing; a new image replaces the URL; "null" deletes the old image, failing on a failed delete; else the URL is kept |
| BarterPostServices.BarterPostService.DeletePost | backend/src/main/java/com/barter/backend/service/BarterPostService.java:482-523 | not found or not owner changes nothing; otherwise the post is removed and its image deleted, a failed delete ignored |

## Left out

- Concurrency: `getFilteredPosts` and `fetchDisplayNamesForUids` issue their reads in parallel; `deleteChat` does not wait for the message deletes; two rating recomputations may race. Each is modelled as one sequential step on the database.
- Failures of Firestore or Cloudinary I/O (`InterruptedException`, `ExecutionException`, network `IOException`) and documents that `toObject` cannot map are not modelled. Every read and write succeeds, and every stored document maps to its record. The exception is the image store, where deleting an unknown id fails as Cloudinary's "not found" result does.
- Logging is left out.
- Floating point: the rating is kept in integer hundredths (see above).
- The unused `radius` and `urgency` parameters of `getFilteredPosts` are left out.
- Java `int` overflow of `page * size` is not modelled: integers are unbounded.
- `Text.ToLower` maps ASCII letters only; Java's locale-sensitive Unicode case mapping is not modelled.
- `Dates.ParseInstantDate` accepts only `YYYY-MM-DDTHH:MM:SS[.fraction]Z`, seconds required and at most nine fraction digits. Offsets and other forms that `Instant.parse` accepts are treated as unparseable. `Dates.ParseLocalDate` accepts years 0000-9999 only.
- `Images.UrlPath` parses only URLs that begin, after trimming, with the lower-case `https://` or `http://`. It treats as malformed three forms that `java.net.URL` accepts: an upper- or mixed-case scheme (`HTTPS://host/p/a.jpg`), a leading `url:` prefix, and a scheme without `//` (`https:/p/a.jpg`). For these, `ExtractPublicId` fails where Java would extract the id. It also does not remove `/./` and `/../` segments from the path, as `java.net.URL` does, and it treats other schemes, user-info, IPv6 hosts and percent-encoding as malformed or keeps them as written. The services only ever store URLs built by `MediaStore.Upload` (`SecureUrl`), and `Images.PublicIdOfSecureUrl` covers those.
- Invalid Firestore document paths (an empty id, an id containing "/") are not rejected. A null uid in `getFilteredPosts` is rejected; other null document ids are modelled by their service's own null checks.
- `ChatServices.DirectChatIdInjective` holds only for uids without "_". Uids that contain "_" can collide (`ChatServices.DirectChatIdCollision`), and the source accepts that.
- Participant lists holding null elements are not modelled: participants are a sequence of strings.
- `UserProfileServices.ApplyUpdates` ignores keys that name no profile field and values of the wrong type. Firestore would store such keys as extra document fields or convert the values.
- `PostListing` handles fetched posts as values: the Java loop mutates each `BarterPost` object in place before filtering. `BarterPostService.JoinOwner` models that in-place join on one object.
- `getAllUsers`, `getChatById`, `getChatsForUser`, `getMessagesForChat`, `getPostById`, `getAllReviews`, `getReviewById`, `getReviewsWrittenByUser` and `getReviewsForBarterPost` are read-only queries outside the modelled core.
- The controllers, the security filter, the exception handler and the Firebase/Cloudinary configuration are not part of this model.
