/** The AT Protocol lexicon identifiers ('$type' values) the converters read and write. */
module Lexicon {
  const ProfileViewType: string := "app.bsky.actor.defs#profileView"
  const ProfileViewBasicType: string := "app.bsky.actor.defs#profileViewBasic"
  const ProfileType: string := "app.bsky.actor.profile"
  const FeedViewPostType: string := "app.bsky.feed.feedViewPost"
  const ReasonRepostType: string := "app.bsky.feed.feedViewPost#reasonRepost"
  const PostViewType: string := "app.bsky.feed.defs#postView"
  const PostType: string := "app.bsky.feed.post"
  const ReplyRefType: string := "app.bsky.feed.post#replyRef"
  const StrongRefType: string := "com.atproto.repo.strongRef"
  const FollowType: string := "app.bsky.graph.follow"
  const ImagesPresentedType: string := "app.bsky.embed.images#presented"
  const PresentedImageType: string := "app.bsky.embed.images#presentedImage"
  const ImagesType: string := "app.bsky.embed.images"
  const ImageType: string := "app.bsky.embed.images#image"
  const ExternalPresentedType: string := "app.bsky.embed.external#presented"
  const PresentedExternalType: string := "app.bsky.embed.external#presentedExternal"
  const ExternalType: string := "app.bsky.embed.external"
  const ExternalItemType: string := "app.bsky.embed.external#external"

  /** Placeholder content identifier written wherever a record needs a cid. */
  const PlaceholderCid: string := "TODO"
}
