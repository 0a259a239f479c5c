/**
 * The data the exporter reads and writes: the GraphQL response of the
 * UserCollection query, each product in it, and the flat record built from
 * a product. Every field the JSON may leave out or set to null is an Option.
 */
module Shapes {
  import opened Wrappers

  /** One entry of `product.directors`; its `name` may be null. */
  datatype Director = Director(name: Option<string>)

  /** `product.otherUserInfos`: the user's own rating and the day they watched the film. */
  datatype UserInfos = UserInfos(rating: Option<int>, dateDone: Option<string>)

  /** One element of `collection.products`. */
  datatype RawProduct = RawProduct(
    title: Option<string>,
    yearOfProduction: Option<int>,
    directors: Option<seq<Director>>,
    otherUserInfos: Option<UserInfos>)

  /** The flat record `parse_movie` builds; `directors` is never nil. */
  datatype MovieRecord = MovieRecord(
    title: Option<string>,
    year: Option<int>,
    directors: string,
    rating10: Option<int>,
    watchedDate: Option<string>)

  /** `data.user.collection`: the declared item count and one page of products. */
  datatype Collection = Collection(total: Option<int>, products: Option<seq<RawProduct>>)

  /** `data.user`; its `collection` may be null. */
  datatype User = User(collection: Option<Collection>)

  /** A parsed JSON body: the GraphQL `errors` array (their messages) and `data.user`. */
  datatype Body = Body(errors: Option<seq<string>>, user: Option<User>)

  /**
   * What a request gives back: `Failed` where the request raised or the HTTP
   * status was not 200 (the transport then returns nil), `Ok` otherwise.
   */
  datatype Response = Failed | Ok(body: Body)

  /** The GraphQL variables of one UserCollection request. */
  datatype Request = Request(username: string, universe: string, limit: nat, offset: nat)

  /** The remote endpoint, as a deterministic function of the request variables. */
  type Server = Request -> Response
}
