/** The server as a whole: the video registry and the two user route files,
    each file owning its own list, so that no request to one of them can
    change another. */
module App {
  import opened Http
  import Slug
  import Users
  import Videos

  class Server {
    const videos: Videos.VideoStore
    /** The list of `src/routes/routes.ts`. */
    const users: Users.UserRegistry
    /** The list of `src/routes.ts`. */
    const rootUsers: Users.UserRegistry

    ghost predicate Valid()
      reads this, videos
    {
      users != rootUsers && videos.Valid()
    }

    constructor ()
      ensures Valid()
      ensures fresh(videos) && fresh(users) && fresh(rootUsers)
      ensures videos.videos == [] && users.users == [] && rootUsers.users == []
    {
      videos := new Videos.VideoStore();
      users := new Users.UserRegistry();
      rootUsers := new Users.UserRegistry();
    }

    /** POST to the users route of `src/routes/routes.ts`. */
    method CreateUser(body: Users.NewUser, id: string) returns (status: nat)
      requires Valid()
      modifies users
      ensures Valid()
      ensures users.users == old(users.users) + [Users.User(id, body.name, body.email)]
      ensures rootUsers.users == old(rootUsers.users) && videos.videos == old(videos.videos)
      ensures status == STATUS_CREATED
    {
      status := users.Create(body, id);
    }

    /** POST to the users route of `src/routes.ts`. */
    method CreateRootUser(body: Users.NewUser, id: string) returns (status: nat)
      requires Valid()
      modifies rootUsers
      ensures Valid()
      ensures rootUsers.users == old(rootUsers.users) + [Users.User(id, body.name, body.email)]
      ensures users.users == old(users.users) && videos.videos == old(videos.videos)
      ensures status == STATUS_CREATED
    {
      status := rootUsers.Create(body, id);
    }

    /** An example upload: upload "My Clip", then fetch the new record by
        the returned id. */
    method UploadMyClip(userId: Videos.Uuid, g: Videos.Generated)
      returns (receipt: Response<Videos.UploadReceipt>, fetched: Response<Videos.Video>)
      requires Valid() && Videos.InRange(g) && !Videos.HasId(videos.videos, g.id)
      modifies videos
      ensures Valid()
      ensures receipt.Ok? && receipt.status == STATUS_CREATED
      ensures receipt.value.uploadUrl == Videos.UPLOAD_URL_BASE + receipt.value.id
      ensures fetched.Ok? && fetched.value.id == receipt.value.id
      ensures fetched.value.title == "My Clip" && fetched.value.userId == userId
      ensures fetched.value.filename == "my-clip.mp4" && fetched.value.mimeType == "video/mp4"
      ensures users.users == old(users.users) && rootUsers.users == old(rootUsers.users)
    {
      receipt := videos.Upload(Videos.CreateVideo("My Clip", userId), g);
      fetched := videos.Get(receipt.value.id);
      Slug.MyClipFilename();
    }
  }
}
